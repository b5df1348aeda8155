/**
 * The pure string logic of the booking form: the live phone formatter, the
 * address normaliser, the display names of the selections, the comment
 * sanitiser and the flat semicolon-separated record sent for spreadsheet use.
 */
module BookingFormat {
  import opened Text
  import opened Types

  function Min(a: int, b: int): int {
    if a < b then a else b
  }

  // ---------------------------------------------------------------------------
  // Phone formatter (formatPhoneNumber)
  // ---------------------------------------------------------------------------

  /** The digits the formatter lays out: all digits, less a leading `1` of an 11-digit number. */
  function PhoneDigits(value: string): (d: string)
    ensures AllDigits(d)
  {
    var all := Digits(value);
    if |all| == 11 && all[0] == '1' then all[1..] else all
  }

  /** Re-emits the digits progressively as `(ddd) ddd-dddd`; the empty input is returned as is. */
  function FormatPhoneNumber(value: string): string {
    if value == "" then value
    else
      var d := PhoneDigits(value);
      if |d| < 4 then d
      else if |d| < 7 then "(" + d[..3] + ") " + d[3..]
      else "(" + d[..3] + ") " + d[3..6] + "-" + d[6..Min(10, |d|)]
  }

  /** The full North American layout; `X` marks a digit. */
  const PhoneMask: string := "(XXX) XXX-XXXX"

  /** `r` is a prefix of the mask with every `X` filled by a digit. */
  predicate FitsPhoneMask(r: string) {
    |r| <= |PhoneMask| &&
    forall i :: 0 <= i < |r| ==> if PhoneMask[i] == 'X' then IsDigit(r[i]) else r[i] == PhoneMask[i]
  }

  /** A complete number: the whole mask, filled. */
  predicate IsFullPhone(r: string) {
    |r| == |PhoneMask| && FitsPhoneMask(r)
  }

  lemma DigitsOfLayout(a: string, b: string, c: string)
    requires AllDigits(a) && AllDigits(b) && AllDigits(c)
    ensures Digits("(" + a + ") " + b) == a + b
    ensures Digits("(" + a + ") " + b + "-" + c) == a + b + c
  {
    DigitsOfDigits(a);
    DigitsOfDigits(b);
    DigitsOfDigits(c);
    DigitsOfNonDigits("(");
    DigitsOfNonDigits(") ");
    DigitsOfNonDigits("-");
    var s1 := "(" + a;
    DigitsAppend("(", a);
    assert Digits(s1) == a;
    var s2 := s1 + ") ";
    DigitsAppend(s1, ") ");
    assert Digits(s2) == a;
    var s3 := s2 + b;
    DigitsAppend(s2, b);
    assert Digits(s3) == a + b;
    var s4 := s3 + "-";
    DigitsAppend(s3, "-");
    assert Digits(s4) == a + b;
    DigitsAppend(s4, c);
  }

  /**
   * What the formatter keeps: the first ten of the digits it lays out, in order,
   * whatever non-digits the input held.
   */
  lemma FormatPhoneKeepsDigits(value: string)
    ensures var d := PhoneDigits(value);
            Digits(FormatPhoneNumber(value)) == d[..Min(10, |d|)]
  {
    var d := PhoneDigits(value);
    var r := FormatPhoneNumber(value);
    if value == "" {
      assert Digits(value) == [];
    } else if |d| < 4 {
      assert r == d;
      DigitsOfDigits(d);
    } else if |d| < 7 {
      var a, b := d[..3], d[3..];
      AllDigitsSlice(d, 0, 3);
      AllDigitsSlice(d, 3, |d|);
      assert r == "(" + a + ") " + b;
      DigitsOfLayout(a, b, "");
      assert a + b == d;
    } else {
      var k := Min(10, |d|);
      var a, b, c := d[..3], d[3..6], d[6..k];
      AllDigitsSlice(d, 0, 3);
      AllDigitsSlice(d, 3, 6);
      AllDigitsSlice(d, 6, k);
      assert r == "(" + a + ") " + b + "-" + c;
      DigitsOfLayout(a, b, c);
      assert a + b + c == d[..k];
    }
  }

  /** Only the digits of the input matter: interspersed characters are ignored. */
  lemma FormatPhoneOnlyDigitsMatter(value: string)
    ensures FormatPhoneNumber(value) == FormatPhoneNumber(Digits(value))
  {
    DigitsOfDigits(Digits(value));
    if value != "" && Digits(value) == "" {
      assert PhoneDigits(value) == "";
    }
  }

  /** Four to six digits laid out as `(ddd) d…` fill the mask from the left. */
  lemma ShortLayoutFits(d: string)
    requires AllDigits(d) && 4 <= |d| < 7
    ensures var r := "(" + d[..3] + ") " + d[3..];
            FitsPhoneMask(r) && |r| == |d| + 3
  {
    var r := "(" + d[..3] + ") " + d[3..];
    forall i | 0 <= i < |r|
      ensures if PhoneMask[i] == 'X' then IsDigit(r[i]) else r[i] == PhoneMask[i]
    {
      if 1 <= i < 4 { assert r[i] == d[i - 1]; }
      else if 6 <= i { assert r[i] == d[i - 3]; }
    }
  }

  /** Seven digits or more laid out as `(ddd) ddd-d…` fill the mask from the left. */
  lemma LongLayoutFits(d: string, k: nat)
    requires AllDigits(d) && 7 <= k <= |d| && k <= 10
    ensures var r := "(" + d[..3] + ") " + d[3..6] + "-" + d[6..k];
            FitsPhoneMask(r) && |r| == k + 4
  {
    var r := "(" + d[..3] + ") " + d[3..6] + "-" + d[6..k];
    forall i | 0 <= i < |r|
      ensures if PhoneMask[i] == 'X' then IsDigit(r[i]) else r[i] == PhoneMask[i]
    {
      if 1 <= i < 4 { assert r[i] == d[i - 1]; }
      else if 6 <= i < 9 { assert r[i] == d[i - 3]; }
      else if 10 <= i { assert r[i] == d[i - 4]; }
    }
  }

  /**
   * The layout: fewer than four digits stay bare; from four on the result fills
   * the mask `(XXX) XXX-XXXX` from the left, one position per digit kept, and
   * from ten digits on it is the complete number.
   */
  lemma FormatPhoneLayout(value: string)
    ensures var d, r := PhoneDigits(value), FormatPhoneNumber(value);
            && (|d| < 4 ==> r == d)
            && (4 <= |d| ==> FitsPhoneMask(r))
            && (4 <= |d| < 7 ==> |r| == |d| + 3)
            && (7 <= |d| ==> |r| == Min(10, |d|) + 4)
            && (10 <= |d| ==> IsFullPhone(r))
  {
    var d, r := PhoneDigits(value), FormatPhoneNumber(value);
    if value == "" {
      assert Digits(value) == [];
    } else if 4 <= |d| < 7 {
      ShortLayoutFits(d);
    } else if 7 <= |d| {
      LongLayoutFits(d, Min(10, |d|));
    }
  }

  /** Formatting an already formatted number changes nothing. */
  lemma FormatPhoneIdempotent(value: string)
    ensures FormatPhoneNumber(FormatPhoneNumber(value)) == FormatPhoneNumber(value)
  {
    var d, r := PhoneDigits(value), FormatPhoneNumber(value);
    var k := Min(10, |d|);
    FormatPhoneKeepsDigits(value);
    var e := d[..k];
    assert Digits(r) == e;
    assert |e| == k <= 10;
    assert PhoneDigits(r) == e;
    if r == "" {
    } else if |d| < 7 {
      assert e == d;
    } else {
      assert |e| == k && Min(10, |e|) == k;
      assert e[..3] == d[..3] && e[3..6] == d[3..6] && e[6..k] == d[6..k];
      assert FormatPhoneNumber(r) == "(" + e[..3] + ") " + e[3..6] + "-" + e[6..k];
    }
  }

  /** A stored value that the formatter leaves alone has at most ten digits; ten make a full number. */
  lemma FormattedPhoneDigits(phone: string)
    requires FormatPhoneNumber(phone) == phone
    ensures |Digits(phone)| <= 10
    ensures |Digits(phone)| >= 10 ==> IsFullPhone(phone)
  {
    FormatPhoneKeepsDigits(phone);
    FormatPhoneLayout(phone);
    var d := PhoneDigits(phone);
    assert |Digits(phone)| == Min(10, |d|);
  }

  // ---------------------------------------------------------------------------
  // Address normaliser (formatAddress)
  // ---------------------------------------------------------------------------

  /** Drops leading whitespace (one half of `trim`). */
  function TrimStart(s: string): (r: string)
    ensures |r| <= |s|
    ensures r == [] || !IsSpace(r[0])
    ensures s != [] && IsSpace(s[0]) ==> |r| < |s|
  {
    if s != [] && IsSpace(s[0]) then TrimStart(s[1..]) else s
  }

  /** What `TrimStart` keeps is a suffix of its input. */
  lemma {:induction false} TrimStartSuffix(s: string)
    ensures TrimStart(s) == s[|s| - |TrimStart(s)|..]
  {
    if s != [] && IsSpace(s[0]) {
      TrimStartSuffix(s[1..]);
    }
  }

  /** What `TrimStart` drops is whitespace only. */
  lemma {:induction false} TrimStartDropsSpaces(s: string)
    ensures forall i :: 0 <= i < |s| - |TrimStart(s)| ==> IsSpace(s[i])
  {
    if s != [] && IsSpace(s[0]) {
      TrimStartDropsSpaces(s[1..]);
      forall i | 0 < i < |s| - |TrimStart(s)|
        ensures IsSpace(s[i])
      {
        assert s[i] == s[1..][i - 1];
      }
    }
  }

  /** Trimming the front of `a + b` touches only `a` when `a` is not blank or `b` starts with a non-space. */
  lemma {:induction false} TrimStartAppend(a: string, b: string)
    requires TrimStart(a) != [] || (b != [] && !IsSpace(b[0]))
    ensures TrimStart(a + b) == TrimStart(a) + b
  {
    if a == [] {
      assert a + b == b;
    } else if IsSpace(a[0]) {
      assert (a + b)[1..] == a[1..] + b;
      TrimStartAppend(a[1..], b);
    }
  }

  /** A string ending with a non-space keeps its last character through `TrimStart`. */
  lemma TrimStartKeepsLast(s: string)
    requires s != [] && !IsSpace(s[|s| - 1])
    ensures TrimStart(s) != [] && TrimStart(s)[|TrimStart(s)| - 1] == s[|s| - 1]
  {
    TrimStartSuffix(s);
    TrimStartDropsSpaces(s);
  }

  /** Drops trailing whitespace (the other half of `trim`). */
  function TrimEnd(s: string): (r: string)
    ensures |r| <= |s|
    ensures r == [] || !IsSpace(r[|r| - 1])
  {
    if s != [] && IsSpace(s[|s| - 1]) then TrimEnd(s[..|s| - 1]) else s
  }

  /** What `TrimEnd` keeps is a prefix of its input. */
  lemma {:induction false} TrimEndPrefix(s: string)
    ensures TrimEnd(s) == s[..|TrimEnd(s)|]
  {
    if s != [] && IsSpace(s[|s| - 1]) {
      TrimEndPrefix(s[..|s| - 1]);
    }
  }

  /** What `TrimEnd` drops is whitespace only. */
  lemma {:induction false} TrimEndDropsSpaces(s: string)
    ensures forall i :: |TrimEnd(s)| <= i < |s| ==> IsSpace(s[i])
  {
    if s != [] && IsSpace(s[|s| - 1]) {
      TrimEndDropsSpaces(s[..|s| - 1]);
      forall i | |TrimEnd(s)| <= i < |s| - 1
        ensures IsSpace(s[i])
      {
        assert s[i] == s[..|s| - 1][i];
      }
    }
  }

  /** Trimming the end of `a + b` touches only `b` when `b` is not blank or `a` ends with a non-space. */
  lemma {:induction false} TrimEndAppend(a: string, b: string)
    requires TrimEnd(b) != [] || (a != [] && !IsSpace(a[|a| - 1]))
    ensures TrimEnd(a + b) == a + TrimEnd(b)
    decreases |b|
  {
    if b == [] {
      assert a + b == a;
    } else if IsSpace(b[|b| - 1]) {
      assert (a + b)[..|a + b| - 1] == a + b[..|b| - 1];
      TrimEndAppend(a, b[..|b| - 1]);
    }
  }

  /** Every whitespace character is a plain space and none is followed by whitespace. */
  predicate Collapsed(t: string) {
    forall i :: 0 <= i < |t| && IsSpace(t[i]) ==> t[i] == ' ' && (i + 1 < |t| ==> !IsSpace(t[i + 1]))
  }

  /**
   * Each maximal run of whitespace becomes one plain space, in its place;
   * every other character is copied.
   */
  function CollapseSpaces(s: string): string
    decreases |s|
  {
    if s == [] then []
    else if IsSpace(s[0]) then [' '] + CollapseSpaces(TrimStart(s))
    else [s[0]] + CollapseSpaces(s[1..])
  }

  /**
   * The collapsed string has only single plain spaces, is empty exactly when
   * its input is, and starts with whitespace exactly when its input does.
   */
  lemma {:induction false} CollapseSpacesShape(s: string)
    ensures Collapsed(CollapseSpaces(s))
    ensures CollapseSpaces(s) == [] <==> s == []
    ensures s != [] ==> (IsSpace(CollapseSpaces(s)[0]) <==> IsSpace(s[0]))
    decreases |s|
  {
    if s != [] {
      var r := CollapseSpaces(s);
      var t := if IsSpace(s[0]) then TrimStart(s) else s[1..];
      CollapseSpacesShape(t);
      var rest := CollapseSpaces(t);
      assert r == [r[0]] + rest;
      forall i | 0 <= i < |r| && IsSpace(r[i])
        ensures r[i] == ' ' && (i + 1 < |r| ==> !IsSpace(r[i + 1]))
      {
        if i > 0 {
          assert r[i] == rest[i - 1];
          if i + 1 < |r| { assert r[i + 1] == rest[i]; }
        }
      }
    }
  }

  /** The address as the blur handler rewrites it: whitespace runs merged, then both ends trimmed. */
  function FormatAddress(s: string): string {
    TrimEnd(TrimStart(CollapseSpaces(s)))
  }

  /** No whitespace at either end, only plain single spaces inside. */
  predicate Tidy(t: string) {
    (t == [] || (!IsSpace(t[0]) && !IsSpace(t[|t| - 1]))) && Collapsed(t)
  }

  /** The characters of `s` that are not whitespace, in order. */
  function NonSpace(s: string): string {
    if s == [] then []
    else (if IsSpace(s[0]) then [] else [s[0]]) + NonSpace(s[1..])
  }

  lemma {:induction false} CollapsedSlice(t: string, a: nat, b: nat)
    requires Collapsed(t) && a <= b <= |t|
    ensures Collapsed(t[a..b])
  {
    var u := t[a..b];
    forall i | 0 <= i < |u| && IsSpace(u[i])
      ensures u[i] == ' ' && (i + 1 < |u| ==> !IsSpace(u[i + 1]))
    {
      assert u[i] == t[a + i];
      if i + 1 < |u| { assert u[i + 1] == t[a + i + 1]; }
    }
  }

  lemma TrimStartCollapsed(c: string)
    requires Collapsed(c)
    ensures Collapsed(TrimStart(c))
  {
    var u := TrimStart(c);
    TrimStartSuffix(c);
    CollapsedSlice(c, |c| - |u|, |c|);
    assert u == c[|c| - |u|..|c|];
  }

  lemma TrimEndCollapsed(u: string)
    requires Collapsed(u)
    ensures Collapsed(TrimEnd(u))
    ensures TrimEnd(u) != [] ==> TrimEnd(u)[0] == u[0]
  {
    var w := TrimEnd(u);
    TrimEndPrefix(u);
    CollapsedSlice(u, 0, |w|);
    assert w == u[0..|w|];
  }

  /** Trimming both ends of a collapsed string leaves it tidy. */
  lemma TrimmedCollapsedTidy(c: string)
    requires Collapsed(c)
    ensures Tidy(TrimEnd(TrimStart(c)))
  {
    var u := TrimStart(c);
    TrimStartCollapsed(c);
    TrimEndCollapsed(u);
  }

  /** The normalised address has no leading, trailing or doubled whitespace. */
  lemma {:induction false} FormatAddressTidy(s: string)
    ensures Tidy(FormatAddress(s))
  {
    CollapseSpacesShape(s);
    TrimmedCollapsedTidy(CollapseSpaces(s));
  }

  lemma {:induction false} CollapseSpacesOfCollapsed(t: string)
    requires Collapsed(t)
    ensures CollapseSpaces(t) == t
    decreases |t|
  {
    if t != [] {
      CollapsedSlice(t, 1, |t|);
      CollapseSpacesOfCollapsed(t[1..]);
      if IsSpace(t[0]) {
        assert TrimStart(t[1..]) == t[1..];
        assert TrimStart(t) == t[1..];
      }
      assert t == [t[0]] + t[1..];
    }
  }

  /** A tidy string is left alone by the normaliser. */
  lemma FormatAddressOfTidy(t: string)
    requires Tidy(t)
    ensures FormatAddress(t) == t
  {
    CollapseSpacesOfCollapsed(t);
  }

  /** Normalising twice is normalising once: a repeated blur changes nothing. */
  lemma FormatAddressIdempotent(s: string)
    ensures FormatAddress(FormatAddress(s)) == FormatAddress(s)
  {
    FormatAddressTidy(s);
    FormatAddressOfTidy(FormatAddress(s));
  }

  lemma {:induction false} NonSpaceAppend(a: string, b: string)
    ensures NonSpace(a + b) == NonSpace(a) + NonSpace(b)
  {
    if a == [] {
      assert a + b == b;
    } else {
      assert (a + b)[1..] == a[1..] + b;
      NonSpaceAppend(a[1..], b);
    }
  }

  lemma {:induction false} NonSpaceTrimStart(s: string)
    ensures NonSpace(TrimStart(s)) == NonSpace(s)
  {
    if s != [] && IsSpace(s[0]) {
      NonSpaceTrimStart(s[1..]);
    }
  }

  lemma {:induction false} NonSpaceTrimEnd(s: string)
    ensures NonSpace(TrimEnd(s)) == NonSpace(s)
  {
    if s != [] && IsSpace(s[|s| - 1]) {
      var p := s[..|s| - 1];
      NonSpaceTrimEnd(p);
      assert s == p + [s[|s| - 1]];
      NonSpaceAppend(p, [s[|s| - 1]]);
    }
  }

  lemma {:induction false} NonSpaceCollapse(s: string)
    ensures NonSpace(CollapseSpaces(s)) == NonSpace(s)
    decreases |s|
  {
    if s != [] {
      if IsSpace(s[0]) {
        var t := TrimStart(s);
        NonSpaceCollapse(t);
        NonSpaceTrimStart(s);
        NonSpaceAppend([' '], CollapseSpaces(t));
      } else {
        NonSpaceCollapse(s[1..]);
        NonSpaceAppend([s[0]], CollapseSpaces(s[1..]));
      }
    }
  }

  /**
   * The normaliser removes and merges whitespace only: every other character
   * survives, in order; so the result is empty exactly when the input is blank.
   */
  lemma FormatAddressKeepsText(s: string)
    ensures NonSpace(FormatAddress(s)) == NonSpace(s)
    ensures FormatAddress(s) == [] <==> NonSpace(s) == []
  {
    var c := CollapseSpaces(s);
    var u := TrimStart(c);
    var r := TrimEnd(u);
    assert r == FormatAddress(s);
    NonSpaceCollapse(s);
    NonSpaceTrimStart(c);
    NonSpaceTrimEnd(u);
    assert NonSpace(r) == NonSpace(s);
    FormatAddressTidy(s);
    NonSpaceStartsWith(r);
  }

  lemma NonSpaceStartsWith(r: string)
    requires r != [] ==> !IsSpace(r[0])
    ensures r == [] <==> NonSpace(r) == []
  {
    if r != [] {
      assert NonSpace(r)[0] == r[0];
    }
  }

  /** A non-empty run made only of whitespace collapses to one plain space. */
  lemma CollapseSpacesBlank(w: string)
    requires w != [] && forall i :: 0 <= i < |w| ==> IsSpace(w[i])
    ensures CollapseSpaces(w) == " "
  {
    TrimStartDropsSpaces(w);
    TrimStartSuffix(w);
  }

  /** Regrouping a concatenation, stated apart so that proofs need not unfold its parts. */
  lemma AppendAssoc(x: string, y: string, z: string)
    ensures x + (y + z) == (x + y) + z
  {
  }

  /** A non-space character is copied and collapsing goes on after it. */
  lemma CollapseSpacesCons(c: char, y: string)
    requires !IsSpace(c)
    ensures CollapseSpaces([c] + y) == [c] + CollapseSpaces(y)
  {
    assert ([c] + y)[1..] == y;
  }

  /**
   * Collapsing works run by run: a string cut next to a non-space character
   * collapses as its two pieces do, so no run is merged across the cut.
   */
  lemma {:induction false} CollapseSpacesAppend(a: string, b: string)
    requires (a != [] && !IsSpace(a[|a| - 1])) || (b != [] && !IsSpace(b[0]))
    ensures CollapseSpaces(a + b) == CollapseSpaces(a) + CollapseSpaces(b)
    decreases |a|
  {
    if a == [] {
      assert a + b == b;
    } else if !IsSpace(a[0]) {
      var a' := a[1..];
      assert a == [a[0]] + a';
      assert a + b == [a[0]] + (a' + b);
      CollapseSpacesCons(a[0], a' + b);
      CollapseSpacesCons(a[0], a');
      if a' == [] {
        assert a' + b == b;
      } else {
        assert a'[|a'| - 1] == a[|a| - 1];
        CollapseSpacesAppend(a', b);
      }
      AppendAssoc([a[0]], CollapseSpaces(a'), CollapseSpaces(b));
    } else {
      var t := TrimStart(a);
      if !IsSpace(a[|a| - 1]) {
        TrimStartKeepsLast(a);
      }
      TrimStartAppend(a, b);
      var x, y := CollapseSpaces(t), CollapseSpaces(b);
      assert CollapseSpaces(a + b) == [' '] + CollapseSpaces(t + b);
      assert CollapseSpaces(a) == [' '] + x;
      CollapseSpacesAppend(t, b);
      AppendAssoc([' '], x, y);
    }
  }

  /** The collapsed string ends with whitespace exactly when its input does. */
  lemma {:induction false} CollapseSpacesLast(s: string)
    requires s != []
    ensures IsSpace(CollapseSpaces(s)[|CollapseSpaces(s)| - 1]) <==> IsSpace(s[|s| - 1])
    decreases |s|
  {
    if !IsSpace(s[0]) {
      if s[1..] != [] {
        CollapseSpacesLast(s[1..]);
      }
    } else {
      var t := TrimStart(s);
      TrimStartSuffix(s);
      TrimStartDropsSpaces(s);
      if t != [] {
        assert t[|t| - 1] == s[|s| - 1];
        CollapseSpacesLast(t);
      }
    }
  }

  /** A whitespace run between a word's end and a word's start collapses to one space. */
  lemma CollapseSpacesJoin(a: string, w: string, b: string)
    requires a != [] && !IsSpace(a[|a| - 1])
    requires w != [] && forall i :: 0 <= i < |w| ==> IsSpace(w[i])
    requires b != [] && !IsSpace(b[0])
    ensures CollapseSpaces(a + w + b) == CollapseSpaces(a) + " " + CollapseSpaces(b)
  {
    CollapseSpacesAppend(a, w + b);
    CollapseSpacesAppend(w, b);
    CollapseSpacesBlank(w);
    AppendAssoc(a, w, b);
    AppendAssoc(CollapseSpaces(a), " ", CollapseSpaces(b));
  }

  /** Trimming `x + " " + y`, where the space sits between two non-spaces, trims only the front of `x` and the end of `y`. */
  lemma TrimJoin(x: string, y: string)
    requires x != [] && !IsSpace(x[|x| - 1])
    requires y != [] && !IsSpace(y[0])
    ensures TrimEnd(TrimStart(x + " " + y)) == TrimStart(x) + " " + TrimEnd(y)
    ensures TrimEnd(TrimStart(x)) == TrimStart(x)
    ensures TrimStart(y) == y
  {
    var tx := TrimStart(x);
    TrimStartKeepsLast(x);
    AppendAssoc(x, " ", y);
    TrimStartAppend(x, " " + y);
    TrimEndDropsSpaces(y);
    assert TrimEnd(y) != [];
    AppendAssoc(tx, " ", y);
    TrimEndAppend(tx + " ", y);
  }

  /**
   * Between two words, a run of whitespace of any length and kind becomes one
   * plain space, and each side is normalised on its own.
   */
  lemma FormatAddressJoin(a: string, w: string, b: string)
    requires a != [] && !IsSpace(a[|a| - 1])
    requires w != [] && forall i :: 0 <= i < |w| ==> IsSpace(w[i])
    requires b != [] && !IsSpace(b[0])
    ensures FormatAddress(a + w + b) == FormatAddress(a) + " " + FormatAddress(b)
  {
    CollapseSpacesJoin(a, w, b);
    CollapseSpacesLast(a);
    CollapseSpacesShape(a);
    CollapseSpacesShape(b);
    TrimJoin(CollapseSpaces(a), CollapseSpaces(b));
  }

  // ---------------------------------------------------------------------------
  // Display names, comment sanitiser and the flat record (handleSubmit)
  // ---------------------------------------------------------------------------

  const DetacheDisplay: string := "Maison Détachée"
  const JumeleDisplay: string := "Maison de Ville / Jumelé"
  const TonteDisplay: string := "Entretien régulier"
  const TonteFeuillesDisplay: string := "Entretien régulier + Nettoyage des feuilles"
  const FeuillesOnlyDisplay: string := "Ramassage de feuilles seulement"
  const ClientOneMarker: string := "OUI (Client 1)"
  const ClientTwoMarker: string := "OUI (Client 2)"
  const SoloMarker: string := "NON"
  const NotApplicable: string := "N/A"

  lemma LawnDisplaysCellSafe()
    ensures CellSafe(DetacheDisplay) && CellSafe(JumeleDisplay)
  {
    assert CellSafe(DetacheDisplay);
    assert CellSafe(JumeleDisplay);
  }

  lemma TonteFeuillesDisplayNoSemicolon()
    ensures ';' !in TonteFeuillesDisplay
  {
  }

  lemma TonteFeuillesDisplayNoNewline()
    ensures '\n' !in TonteFeuillesDisplay
  {
  }

  lemma ServiceDisplaysCellSafe()
    ensures CellSafe(TonteDisplay) && CellSafe(TonteFeuillesDisplay) && CellSafe(FeuillesOnlyDisplay)
  {
    TonteFeuillesDisplayNoSemicolon();
    TonteFeuillesDisplayNoNewline();
    assert ';' !in TonteDisplay && '\n' !in TonteDisplay;
    assert ';' !in FeuillesOnlyDisplay;
    assert '\n' !in FeuillesOnlyDisplay;
  }

  lemma MarkersCellSafe()
    ensures CellSafe(ClientOneMarker) && CellSafe(ClientTwoMarker) && CellSafe(SoloMarker)
    ensures CellSafe(NotApplicable)
  {
    assert CellSafe(ClientOneMarker);
    assert CellSafe(ClientTwoMarker);
    assert CellSafe(SoloMarker);
    assert CellSafe(NotApplicable);
  }

  function LawnTypeDisplay(l: LawnType): string {
    if l == Detache then DetacheDisplay else JumeleDisplay
  }

  function ServiceTypeDisplay(s: ServiceType): string {
    if s == Tonte then TonteDisplay
    else if s == TonteFeuilles then TonteFeuillesDisplay
    else FeuillesOnlyDisplay
  }

  /** The display names can stand in a cell of the record. */
  lemma SelectionDisplaysCellSafe(l: LawnType, s: ServiceType)
    ensures CellSafe(LawnTypeDisplay(l))
    ensures CellSafe(ServiceTypeDisplay(s))
  {
    LawnDisplaysCellSafe();
    ServiceDisplaysCellSafe();
  }

  /** The display names tell every selection apart. */
  lemma DisplaysIdentifySelection(l1: LawnType, l2: LawnType, s1: ServiceType, s2: ServiceType)
    ensures LawnTypeDisplay(l1) == LawnTypeDisplay(l2) ==> l1 == l2
    ensures ServiceTypeDisplay(s1) == ServiceTypeDisplay(s2) ==> s1 == s2
  {
    assert LawnTypeDisplay(Jumele)[7] != LawnTypeDisplay(Detache)[7];
    assert ServiceTypeDisplay(Tonte)[0] != ServiceTypeDisplay(FeuillesOnly)[0];
    assert ServiceTypeDisplay(TonteFeuilles)[0] != ServiceTypeDisplay(FeuillesOnly)[0];
    assert |ServiceTypeDisplay(Tonte)| != |ServiceTypeDisplay(TonteFeuilles)|;
  }

  /** Every line break replaced by a space, a bar and a space. */
  function ReplaceNewlines(s: string): string {
    if s == [] then []
    else (if s[0] == '\n' then " | " else [s[0]]) + ReplaceNewlines(s[1..])
  }

  /**
   * No line break survives; a text without one is unchanged; every other
   * character, apart from the inserted space and bar, occurs in the result
   * exactly when it occurs in the input.
   */
  lemma {:induction false} ReplaceNewlinesSpec(s: string)
    ensures '\n' !in ReplaceNewlines(s)
    ensures '\n' !in s ==> ReplaceNewlines(s) == s
    ensures forall c :: c != ' ' && c != '|' ==> (c in ReplaceNewlines(s) <==> c in s && c != '\n')
  {
    if s != [] {
      ReplaceNewlinesSpec(s[1..]);
      var head := if s[0] == '\n' then " | " else [s[0]];
      var rest := ReplaceNewlines(s[1..]);
      assert ReplaceNewlines(s) == head + rest;
      assert s == [s[0]] + s[1..];
      forall c | c != ' ' && c != '|'
        ensures c in head + rest <==> c in s && c != '\n'
      {
        assert c in head + rest <==> c in head || c in rest;
        assert c in s <==> c == s[0] || c in s[1..];
      }
    }
  }

  /** The replacement works character by character: a line break becomes ` | `, any other character stays. */
  lemma ReplaceNewlinesChar(c: char)
    ensures ReplaceNewlines([c]) == if c == '\n' then " | " else [c]
  {
  }

  /** Replacing line breaks in a concatenation replaces them in each piece. */
  lemma {:induction false} ReplaceNewlinesAppend(a: string, b: string)
    ensures ReplaceNewlines(a + b) == ReplaceNewlines(a) + ReplaceNewlines(b)
  {
    if a == [] {
      assert a + b == b;
    } else {
      assert (a + b)[1..] == a[1..] + b;
      ReplaceNewlinesAppend(a[1..], b);
      var head := if a[0] == '\n' then " | " else [a[0]];
      AppendAssoc(head, ReplaceNewlines(a[1..]), ReplaceNewlines(b));
    }
  }

  /** The comment as written into the record: `Aucun` when empty, line breaks replaced. */
  function SafeComment(comment: string): string {
    ReplaceNewlines(if comment == "" then "Aucun" else comment)
  }

  /**
   * The record's comment has no line break, is `Aucun` for an empty comment,
   * is the comment itself when it has no line break, and has a semicolon
   * exactly when the comment does.
   */
  lemma SafeCommentSpec(comment: string)
    ensures '\n' !in SafeComment(comment)
    ensures comment == "" ==> SafeComment(comment) == "Aucun"
    ensures comment != "" && '\n' !in comment ==> SafeComment(comment) == comment
    ensures ';' in SafeComment(comment) <==> ';' in comment
  {
    var t := if comment == "" then "Aucun" else comment;
    ReplaceNewlinesSpec(t);
    if comment == "" {
      assert '\n' !in t && ';' !in t;
    }
  }

  /** An empty neighbour field is written as `N/A`. */
  function OrNA(field: string): string {
    if field == "" then NotApplicable else field
  }

  /** A neighbour cell is never empty, and is safe whenever the entered field is. */
  lemma OrNASpec(field: string)
    ensures OrNA(field) != ""
    ensures CellSafe(field) ==> CellSafe(OrNA(field))
  {
    MarkersCellSafe();
  }

  /** The client's row. */
  function PrimaryLine(d: BookingFormData): string {
    d.name + ";" + d.phone + ";" + d.email + ";" + d.address + ";"
      + LawnTypeDisplay(d.lawnType) + ";" + ServiceTypeDisplay(d.serviceType) + ";"
      + (if d.isDuoVoisin then ClientOneMarker else SoloMarker) + ";" + SafeComment(d.comment)
  }

  /** The neighbour's row, written only for a "Duo Voisin" booking. */
  function NeighborLine(d: BookingFormData): string {
    var n := d.neighborInfo;
    OrNA(n.name) + ";" + OrNA(n.phone) + ";" + OrNA(n.email) + ";" + OrNA(n.address) + ";"
      + LawnTypeDisplay(d.lawnType) + ";" + ServiceTypeDisplay(d.serviceType) + ";"
      + ClientTwoMarker + ";" + SafeComment(d.comment)
  }

  /** The flat record: one row, or two separated by a line break for a duo booking. */
  function ExcelLines(d: BookingFormData): string {
    if d.isDuoVoisin then PrimaryLine(d) + "\n" + NeighborLine(d) else PrimaryLine(d)
  }

  /** The eight columns of the client's row, as a spreadsheet reads them back. */
  function PrimaryColumns(d: BookingFormData): seq<string> {
    [d.name, d.phone, d.email, d.address,
     LawnTypeDisplay(d.lawnType), ServiceTypeDisplay(d.serviceType),
     if d.isDuoVoisin then ClientOneMarker else SoloMarker, SafeComment(d.comment)]
  }

  /** The eight columns of the neighbour's row. */
  function NeighborColumns(d: BookingFormData): seq<string> {
    var n := d.neighborInfo;
    [OrNA(n.name), OrNA(n.phone), OrNA(n.email), OrNA(n.address),
     LawnTypeDisplay(d.lawnType), ServiceTypeDisplay(d.serviceType),
     ClientTwoMarker, SafeComment(d.comment)]
  }

  /** A value that can stand in one cell: no column or row separator. */
  predicate CellSafe(s: string) {
    ';' !in s && '\n' !in s
  }

  /**
   * The fields that go into the record unchanged hold no separator. Only the
   * comment's line breaks are sanitised; semicolons are not.
   */
  predicate FieldsCellSafe(d: BookingFormData) {
    && CellSafe(d.name) && CellSafe(d.phone) && CellSafe(d.email) && CellSafe(d.address)
    && ';' !in d.comment
    && (d.isDuoVoisin ==>
          var n := d.neighborInfo;
          CellSafe(n.name) && CellSafe(n.phone) && CellSafe(n.email) && CellSafe(n.address))
  }

  /** Eight cells joined by semicolons read back as those cells; the row has no line break. */
  lemma SplitEight(c0: string, c1: string, c2: string, c3: string,
                   c4: string, c5: string, c6: string, c7: string)
    requires CellSafe(c0) && CellSafe(c1) && CellSafe(c2) && CellSafe(c3)
    requires CellSafe(c4) && CellSafe(c5) && CellSafe(c6) && CellSafe(c7)
    ensures Split(c0 + ";" + c1 + ";" + c2 + ";" + c3 + ";"
                  + c4 + ";" + c5 + ";" + c6 + ";" + c7, ';')
            == [c0, c1, c2, c3, c4, c5, c6, c7]
    ensures '\n' !in c0 + ";" + c1 + ";" + c2 + ";" + c3 + ";"
                      + c4 + ";" + c5 + ";" + c6 + ";" + c7
  {
    var l1 := c0 + ";" + c1;
    var l2 := l1 + ";" + c2;
    var l3 := l2 + ";" + c3;
    var l4 := l3 + ";" + c4;
    var l5 := l4 + ";" + c5;
    var l6 := l5 + ";" + c6;
    SplitNoSeparator(c0, ';');
    SplitAtLastSeparator(c0, c1, ';');
    SplitAtLastSeparator(l1, c2, ';');
    SplitAtLastSeparator(l2, c3, ';');
    SplitAtLastSeparator(l3, c4, ';');
    SplitAtLastSeparator(l4, c5, ';');
    SplitAtLastSeparator(l5, c6, ';');
    SplitAtLastSeparator(l6, c7, ';');
    NoBreakEight(c0, c1, c2, c3, c4, c5, c6, c7);
  }

  /** Eight cells without a line break, joined by semicolons, make a row without one. */
  lemma NoBreakEight(c0: string, c1: string, c2: string, c3: string,
                     c4: string, c5: string, c6: string, c7: string)
    requires '\n' !in c0 && '\n' !in c1 && '\n' !in c2 && '\n' !in c3
    requires '\n' !in c4 && '\n' !in c5 && '\n' !in c6 && '\n' !in c7
    ensures '\n' !in c0 + ";" + c1 + ";" + c2 + ";" + c3 + ";"
                      + c4 + ";" + c5 + ";" + c6 + ";" + c7
  {
    var l1 := c0 + ";" + c1;
    var l2 := l1 + ";" + c2;
    var l3 := l2 + ";" + c3;
    var l4 := l3 + ";" + c4;
    var l5 := l4 + ";" + c5;
    var l6 := l5 + ";" + c6;
    assert '\n' !in l1;
    assert '\n' !in l2;
    assert '\n' !in l3;
    assert '\n' !in l4;
    assert '\n' !in l5;
    assert '\n' !in l6;
  }

  /** The entered fields that go into the record unchanged hold no line break. */
  predicate FieldsLineFree(d: BookingFormData) {
    && '\n' !in d.name && '\n' !in d.phone && '\n' !in d.email && '\n' !in d.address
    && (d.isDuoVoisin ==>
          var n := d.neighborInfo;
          '\n' !in n.name && '\n' !in n.phone && '\n' !in n.email && '\n' !in n.address)
  }

  lemma PrimaryLineNoBreak(d: BookingFormData)
    requires FieldsLineFree(d)
    ensures '\n' !in PrimaryLine(d)
  {
    MarkersCellSafe();
    SelectionDisplaysCellSafe(d.lawnType, d.serviceType);
    SafeCommentSpec(d.comment);
    NoBreakEight(d.name, d.phone, d.email, d.address,
                 LawnTypeDisplay(d.lawnType), ServiceTypeDisplay(d.serviceType),
                 if d.isDuoVoisin then ClientOneMarker else SoloMarker, SafeComment(d.comment));
  }

  lemma NeighborLineNoBreak(d: BookingFormData)
    requires FieldsLineFree(d) && d.isDuoVoisin
    ensures '\n' !in NeighborLine(d)
  {
    var n := d.neighborInfo;
    MarkersCellSafe();
    SelectionDisplaysCellSafe(d.lawnType, d.serviceType);
    SafeCommentSpec(d.comment);
    NoBreakEight(OrNA(n.name), OrNA(n.phone), OrNA(n.email), OrNA(n.address),
                 LawnTypeDisplay(d.lawnType), ServiceTypeDisplay(d.serviceType),
                 ClientTwoMarker, SafeComment(d.comment));
  }

  /**
   * Whatever semicolons the entries hold, the record splits into rows at its
   * line breaks as written: the client's row, then the neighbour's for a duo
   * booking, and nothing else.
   */
  lemma FlatRecordRows(d: BookingFormData)
    requires FieldsLineFree(d)
    ensures Split(ExcelLines(d), '\n')
            == if d.isDuoVoisin then [PrimaryLine(d), NeighborLine(d)] else [PrimaryLine(d)]
  {
    PrimaryLineNoBreak(d);
    SplitNoSeparator(PrimaryLine(d), '\n');
    if d.isDuoVoisin {
      NeighborLineNoBreak(d);
      SplitNoSeparator(NeighborLine(d), '\n');
      SplitAtSeparator(PrimaryLine(d), NeighborLine(d), '\n');
    }
  }

  lemma PrimaryLineColumns(d: BookingFormData)
    requires FieldsCellSafe(d)
    ensures '\n' !in PrimaryLine(d)
    ensures Split(PrimaryLine(d), ';') == PrimaryColumns(d)
  {
    MarkersCellSafe();
    SelectionDisplaysCellSafe(d.lawnType, d.serviceType);
    SafeCommentSpec(d.comment);
    SplitEight(d.name, d.phone, d.email, d.address,
               LawnTypeDisplay(d.lawnType), ServiceTypeDisplay(d.serviceType),
               if d.isDuoVoisin then ClientOneMarker else SoloMarker, SafeComment(d.comment));
  }

  lemma NeighborLineColumns(d: BookingFormData)
    requires FieldsCellSafe(d) && d.isDuoVoisin
    ensures '\n' !in NeighborLine(d)
    ensures Split(NeighborLine(d), ';') == NeighborColumns(d)
  {
    var n := d.neighborInfo;
    MarkersCellSafe();
    SelectionDisplaysCellSafe(d.lawnType, d.serviceType);
    SafeCommentSpec(d.comment);
    OrNASpec(n.name);
    OrNASpec(n.phone);
    OrNASpec(n.email);
    OrNASpec(n.address);
    SplitEight(OrNA(n.name), OrNA(n.phone), OrNA(n.email), OrNA(n.address),
               LawnTypeDisplay(d.lawnType), ServiceTypeDisplay(d.serviceType),
               ClientTwoMarker, SafeComment(d.comment));
  }

  /**
   * Reading the flat record back: one row, or two for a duo booking; the
   * client's columns as entered; the neighbour's with `N/A` for empty fields;
   * both rows with the same property, plan and sanitised comment.
   */
  lemma FlatRecordColumns(d: BookingFormData)
    requires FieldsCellSafe(d)
    ensures var rows := Split(ExcelLines(d), '\n');
            && |rows| == (if d.isDuoVoisin then 2 else 1)
            && Split(rows[0], ';') == PrimaryColumns(d)
            && (d.isDuoVoisin ==> Split(rows[1], ';') == NeighborColumns(d))
  {
    FlatRecordRows(d);
    PrimaryLineColumns(d);
    if d.isDuoVoisin {
      NeighborLineColumns(d);
    }
  }

  /** What the two rows of a duo booking share and where they differ. */
  lemma DuoRowsShareSelection(d: BookingFormData)
    requires d.isDuoVoisin
    ensures var p, q := PrimaryColumns(d), NeighborColumns(d);
            var n := d.neighborInfo;
            var entered := [n.name, n.phone, n.email, n.address];
            && |p| == |q| == 8
            && p[4] == q[4] == LawnTypeDisplay(d.lawnType)
            && p[5] == q[5] == ServiceTypeDisplay(d.serviceType)
            && p[7] == q[7] == SafeComment(d.comment)
            && p[6] == ClientOneMarker && q[6] == ClientTwoMarker
            && (forall j :: 0 <= j < 4 ==> q[j] == (if entered[j] == "" then NotApplicable else entered[j]))
  {
    var p, q := PrimaryColumns(d), NeighborColumns(d);
    assert p[6] == ClientOneMarker;
    assert q[6] == ClientTwoMarker;
    assert q[..4] == [OrNA(d.neighborInfo.name), OrNA(d.neighborInfo.phone),
                      OrNA(d.neighborInfo.email), OrNA(d.neighborInfo.address)];
  }

  // ---------------------------------------------------------------------------
  // The message handed to the e-mail service
  // ---------------------------------------------------------------------------

  const AdminName: string := "Admin Altea"
  const NoComment: string := "Aucun commentaire"

  /** The template parameters of the administrator's e-mail. */
  datatype TemplateParams = TemplateParams(
    toName: string,
    clientName: string,
    clientEmail: string,
    email: string,
    clientPhone: string,
    clientAddress: string,
    lawnTypeDisplay: string,
    serviceTypeDisplay: string,
    excelLines: string,
    isDuo: string,
    isDuoBool: bool,
    vNom: string,
    vAdr: string,
    vTel: string,
    vMail: string,
    commentaire: string)

  /** The parameters built from the form record and its flat record. */
  function TemplateParamsOf(d: BookingFormData, excelLines: string): TemplateParams
  {
    var n := d.neighborInfo;
    TemplateParams(
      AdminName, d.name, d.email, d.email, d.phone, d.address,
      LawnTypeDisplay(d.lawnType), ServiceTypeDisplay(d.serviceType), excelLines,
      if d.isDuoVoisin then "OUI" else "NON", d.isDuoVoisin,
      if d.isDuoVoisin then n.name else NotApplicable,
      if d.isDuoVoisin then n.address else NotApplicable,
      if d.isDuoVoisin then n.phone else NotApplicable,
      if d.isDuoVoisin then n.email else NotApplicable,
      if d.comment == "" then NoComment else d.comment)
  }
}
