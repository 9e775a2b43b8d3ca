/**
 * The device's line protocol: one text line `<ms>,<value>` per sample
 * (`SerialWorker.parse_csv`). Converting a field to a number is Python's
 * `float()`, which is not modelled character by character: the parser takes
 * it as a parameter, a partial function from text to a number.
 */
module LineParser {
  import opened Wrappers

  /** Characters `str.strip()` removes: those for which Python's `str.isspace` holds. */
  predicate IsSpace(c: char)
  {
    || '\t' <= c <= '\r'
    || '\U{1C}' <= c <= ' '
    || c == '\U{85}' || c == '\U{A0}' || c == '\U{1680}'
    || '\U{2000}' <= c <= '\U{200A}'
    || c == '\U{2028}' || c == '\U{2029}' || c == '\U{202F}' || c == '\U{205F}' || c == '\U{3000}'
  }

  /** Drops leading whitespace: what is removed is all whitespace, and what is kept does not start with it. */
  function StripLeft(s: string): (r: string)
    ensures |r| <= |s| && r == s[|s| - |r|..]
    ensures forall i :: 0 <= i < |s| - |r| ==> IsSpace(s[i])
    ensures r == [] || !IsSpace(r[0])
  {
    if s != [] && IsSpace(s[0]) then StripLeft(s[1..]) else s
  }

  /** Drops trailing whitespace: what is removed is all whitespace, and what is kept does not end with it. */
  function StripRight(s: string): (r: string)
    ensures |r| <= |s| && r == s[..|r|]
    ensures forall i :: |r| <= i < |s| ==> IsSpace(s[i])
    ensures r == [] || !IsSpace(r[|r| - 1])
  {
    if s != [] && IsSpace(s[|s| - 1]) then StripRight(s[..|s| - 1]) else s
  }

  /**
   * `str.strip()`: the contiguous part of the line that starts after its
   * leading whitespace and ends before its trailing whitespace.
   */
  function Strip(s: string): (r: string)
    ensures var k := |s| - |StripLeft(s)|;
            && k + |r| <= |s|
            && r == s[k..k + |r|]
            && (forall i :: 0 <= i < k ==> IsSpace(s[i]))
            && (forall i :: k + |r| <= i < |s| ==> IsSpace(s[i]))
    ensures r == [] || (!IsSpace(r[0]) && !IsSpace(r[|r| - 1]))
  {
    var t := StripLeft(s);
    var r := StripRight(t);
    StripParts(s, t, r);
    r
  }

  /**
   * The two passes of `Strip` compose: cutting the trailing whitespace off
   * what is left after cutting the leading whitespace gives a slice of the
   * line with only whitespace around it, which neither starts nor ends with
   * whitespace.
   */
  lemma StripParts(s: string, t: string, r: string)
    requires |t| <= |s| && t == s[|s| - |t|..]
    requires forall i :: 0 <= i < |s| - |t| ==> IsSpace(s[i])
    requires t == [] || !IsSpace(t[0])
    requires |r| <= |t| && r == t[..|r|]
    requires forall i :: |r| <= i < |t| ==> IsSpace(t[i])
    requires r == [] || !IsSpace(r[|r| - 1])
    ensures var k := |s| - |t|;
            && k + |r| <= |s|
            && r == s[k..k + |r|]
            && (forall i :: 0 <= i < k ==> IsSpace(s[i]))
            && (forall i :: k + |r| <= i < |s| ==> IsSpace(s[i]))
    ensures r == [] || (!IsSpace(r[0]) && !IsSpace(r[|r| - 1]))
  {
    var k := |s| - |t|;
    forall i | k + |r| <= i < |s|
      ensures IsSpace(s[i])
    {
      assert s[i] == t[i - k];
    }
  }

  /** Position of the first occurrence of `c` in `s`, if any (`str.find`). */
  function IndexOf(s: string, c: char): (r: Option<nat>)
    ensures r.None? <==> c !in s
    ensures r.Some? ==> r.value < |s| && s[r.value] == c && c !in s[..r.value]
  {
    if s == [] then None
    else if s[0] == c then Some(0)
    else
      match IndexOf(s[1..], c)
      case None => None
      case Some(k) => Some(k + 1)
  }

  /** `k` is the position of the first comma of `t`. */
  predicate FirstComma(t: string, k: int)
  {
    0 <= k < |t| && t[k] == ',' && ',' !in t[..k]
  }

  /** `line.startswith('millis')`: the header line some firmware prints first. */
  predicate IsHeader(t: string)
  {
    |t| >= 6 && t[..6] == "millis"
  }

  /**
   * `parse_csv`: strips the line, rejects it when it holds no comma or is the
   * header, splits it at its FIRST comma only, and converts both halves; a
   * half that does not convert rejects the line (the source catches the
   * exception and returns None).
   */
  function ParseCsv(line: string, parseNum: string -> Option<real>): (r: Option<(real, real)>)
    ensures ',' !in Strip(line) ==> r == None
    ensures IsHeader(Strip(line)) ==> r == None
    ensures forall k | FirstComma(Strip(line), k) && !IsHeader(Strip(line)) ::
              var t := Strip(line);
              && (r.Some? <==> parseNum(t[..k]).Some? && parseNum(t[k + 1..]).Some?)
              && (r.Some? ==> r.value == (parseNum(t[..k]).value, parseNum(t[k + 1..]).value))
  {
    ParseStripped(Strip(line), parseNum)
  }

  /** What `parse_csv` does once the line is stripped. */
  function ParseStripped(t: string, parseNum: string -> Option<real>): (r: Option<(real, real)>)
    ensures ',' !in t ==> r == None
    ensures IsHeader(t) ==> r == None
    ensures forall k | FirstComma(t, k) && !IsHeader(t) ::
              && (r.Some? <==> parseNum(t[..k]).Some? && parseNum(t[k + 1..]).Some?)
              && (r.Some? ==> r.value == (parseNum(t[..k]).value, parseNum(t[k + 1..]).value))
  {
    if ',' in t && !IsHeader(t) then
      var k := IndexOf(t, ',').value;
      assert forall j | FirstComma(t, j) :: j == k by {
        forall j | FirstComma(t, j) ensures j == k { FirstCommaUnique(t, j, k); }
      }
      match (parseNum(t[..k]), parseNum(t[k + 1..]))
      case (Some(ms), Some(g)) => Some((ms, g))
      case _ => None
    else
      None
  }

  /** A line has at most one first comma. */
  lemma FirstCommaUnique(t: string, j: int, k: int)
    requires FirstComma(t, j) && FirstComma(t, k)
    ensures j == k
  {
  }

  /** Stripping an already stripped line leaves it unchanged. */
  lemma StripIsIdempotent(s: string)
    ensures Strip(Strip(s)) == Strip(s)
  {
    var t := Strip(s);
    if t != [] {
      assert t == StripLeft(s)[..|t|];
      assert !IsSpace(t[0]);
    }
  }
}
