/**
 * JavaScript string semantics the forms and routes rely on: the whitespace class shared by
 * `\s` and `String.prototype.trim`, `trim`, the global `replace` calls that delete one class
 * of characters, `split(/\s+/)` with `join("")`, and truthiness of optional strings.
 */
module Text {
  import opened Wrappers

  /** ECMAScript WhiteSpace and LineTerminator code points; both `\s` and `trim` use this set. */
  predicate IsSpace(c: char) {
    c in SpaceChars || '\U{2000}' <= c <= '\U{200A}'
  }

  const SpaceChars: set<char> := {
    ' ', '\t', '\n', '\r', '\U{0B}', '\U{0C}', '\U{A0}', '\U{1680}',
    '\U{2028}', '\U{2029}', '\U{202F}', '\U{205F}', '\U{3000}', '\U{FEFF}'
  }

  predicate NotSpace(c: char) { !IsSpace(c) }

  /** `\d` */
  predicate IsDigit(c: char) { '0' <= c <= '9' }

  predicate NotPlus(c: char) { c != '+' }

  /** Every character of `s` is whitespace (vacuously so for ""): `!s.trim()` in the source. */
  predicate IsBlank(s: string) {
    forall i :: 0 <= i < |s| ==> IsSpace(s[i])
  }

  predicate NoSpace(s: string) {
    forall i :: 0 <= i < |s| ==> !IsSpace(s[i])
  }

  /** `s.startsWith("+")` */
  predicate StartsWithPlus(s: string) {
    |s| > 0 && s[0] == '+'
  }

  /** A JSON or environment string that JavaScript treats as true: present and non-empty. */
  predicate Truthy(o: Option<string>) {
    o.Some? && o.value != ""
  }

  /** `o || fallback` for an optional string. */
  function OrElse(o: Option<string>, fallback: string): string {
    if Truthy(o) then o.value else fallback
  }

  /** The characters of `s` that `keep` accepts, in order: `s.replace(/[^keep]/g, "")`. */
  function Filter(s: string, keep: char -> bool): (r: string)
    ensures |r| <= |s|
    ensures forall i :: 0 <= i < |r| ==> keep(r[i])
  {
    if s == [] then []
    else (if keep(s[0]) then [s[0]] else []) + Filter(s[1..], keep)
  }

  /** `s.replace(/\s+/g, "")` */
  function RemoveSpaces(s: string): (r: string)
    ensures NoSpace(r)
  {
    Filter(s, NotSpace)
  }

  /** `s.replace(/\D/g, "")` */
  function DigitsOf(s: string): (r: string)
    ensures forall i :: 0 <= i < |r| ==> IsDigit(r[i])
  {
    Filter(s, IsDigit)
  }

  /** `s.replace(/\+/g, "")` */
  function RemovePlus(s: string): (r: string)
    ensures '+' !in r
  {
    Filter(s, NotPlus)
  }

  lemma {:induction false} FilterAppend(x: string, y: string, keep: char -> bool)
    ensures Filter(x + y, keep) == Filter(x, keep) + Filter(y, keep)
  {
    if x != [] {
      assert (x + y)[0] == x[0] && (x + y)[1..] == x[1..] + y;
      FilterAppend(x[1..], y, keep);
    } else {
      assert x + y == y;
    }
  }

  lemma {:induction false} FilterKeepsAll(s: string, keep: char -> bool)
    requires forall i :: 0 <= i < |s| ==> keep(s[i])
    ensures Filter(s, keep) == s
  {
    if s != [] {
      FilterKeepsAll(s[1..], keep);
    }
  }

  lemma {:induction false} FilterDropsAll(s: string, keep: char -> bool)
    requires forall i :: 0 <= i < |s| ==> !keep(s[i])
    ensures Filter(s, keep) == []
  {
    if s != [] {
      FilterDropsAll(s[1..], keep);
    }
  }

  /** Leading whitespace removed: `s.trimStart()`. */
  function TrimStart(s: string): (r: string)
    ensures |r| <= |s|
  {
    if s != [] && IsSpace(s[0]) then TrimStart(s[1..]) else s
  }

  /** Trailing whitespace removed: `s.trimEnd()`. */
  function TrimEnd(s: string): (r: string)
    ensures |r| <= |s|
  {
    if s != [] && IsSpace(s[|s| - 1]) then TrimEnd(s[..|s| - 1]) else s
  }

  /** `s.trim()` */
  function Trim(s: string): string {
    TrimEnd(TrimStart(s))
  }

  /** `trimStart` removes a blank prefix, and the longest one: what is left does not start with whitespace. */
  lemma {:induction false} TrimStartSplits(s: string) returns (lead: string)
    ensures s == lead + TrimStart(s) && IsBlank(lead)
    ensures TrimStart(s) == [] || !IsSpace(TrimStart(s)[0])
    decreases |s|
  {
    if s != [] && IsSpace(s[0]) {
      var rest := TrimStartSplits(s[1..]);
      lead := [s[0]] + rest;
      calc {
        s;
        [s[0]] + s[1..];
        [s[0]] + (rest + TrimStart(s[1..]));
        lead + TrimStart(s);
      }
    } else {
      lead := [];
    }
  }

  /** `trimEnd` removes a blank suffix, and the longest one: what is left does not end with whitespace. */
  lemma {:induction false} TrimEndSplits(t: string) returns (trail: string)
    ensures t == TrimEnd(t) + trail && IsBlank(trail)
    ensures TrimEnd(t) == [] || !IsSpace(TrimEnd(t)[|TrimEnd(t)| - 1])
    decreases |t|
  {
    if t != [] && IsSpace(t[|t| - 1]) {
      var init := t[..|t| - 1];
      var rest := TrimEndSplits(init);
      trail := rest + [t[|t| - 1]];
      calc {
        t;
        init + [t[|t| - 1]];
        (TrimEnd(init) + rest) + [t[|t| - 1]];
        TrimEnd(t) + trail;
      }
    } else {
      trail := [];
    }
  }

  /**
   * Splits `s` into the blank text `trim` removes in front, the trimmed text and the blank text
   * behind; the trimmed text neither starts nor ends with whitespace.
   */
  lemma TrimDecomposes(s: string) returns (lead: string, trail: string)
    ensures s == lead + (Trim(s) + trail)
    ensures IsBlank(lead) && IsBlank(trail)
    ensures Trim(s) == [] || (!IsSpace(Trim(s)[0]) && !IsSpace(Trim(s)[|Trim(s)| - 1]))
  {
    lead := TrimStartSplits(s);
    var t := TrimStart(s);
    trail := TrimEndSplits(t);
    if Trim(s) != [] {
      assert Trim(s)[0] == t[0];
    }
  }

  /** Trim yields "" exactly for blank strings, so `!s.trim()` means "s is blank". */
  lemma TrimEmptyIffBlank(s: string)
    ensures Trim(s) == [] <==> IsBlank(s)
  {
    var lead, trail := TrimDecomposes(s);
    if Trim(s) == [] {
      assert s == lead + trail by { assert Trim(s) + trail == trail; }
      forall i | 0 <= i < |s| ensures IsSpace(s[i]) {
        if i < |lead| { assert s[i] == lead[i]; } else { assert s[i] == trail[i - |lead|]; }
      }
    } else {
      assert s[|lead|] == Trim(s)[0];
    }
  }

  /** Trim leaves a string without whitespace unchanged. */
  lemma TrimNoSpace(s: string)
    requires NoSpace(s)
    ensures Trim(s) == s
  {
    assert TrimStart(s) == s;
    assert TrimEnd(s) == s;
  }

  /** Deleting every character `keep` refuses gives the same text with or without trimming first. */
  lemma FilterIgnoresTrim(s: string, keep: char -> bool)
    requires forall c :: IsSpace(c) ==> !keep(c)
    ensures Filter(Trim(s), keep) == Filter(s, keep)
  {
    var lead, trail := TrimDecomposes(s);
    FilterAppend(lead, Trim(s) + trail, keep);
    FilterAppend(Trim(s), trail, keep);
    FilterDropsAll(lead, keep);
    FilterDropsAll(trail, keep);
  }

  /** A digit is never whitespace. */
  lemma DigitNotSpace(c: char)
    requires IsDigit(c)
    ensures !IsSpace(c)
  {
  }

  /** `trim` before deleting whitespace changes nothing. */
  lemma RemoveSpacesIgnoresTrim(s: string)
    ensures RemoveSpaces(Trim(s)) == RemoveSpaces(s)
  {
    FilterIgnoresTrim(s, NotSpace);
  }

  /** `trim` before keeping only digits changes nothing. */
  lemma DigitsOfIgnoresTrim(s: string)
    ensures DigitsOf(Trim(s)) == DigitsOf(s)
  {
    forall c | IsSpace(c) ensures !IsDigit(c) {
      if IsDigit(c) { DigitNotSpace(c); }
    }
    FilterIgnoresTrim(s, IsDigit);
  }

  /** Deleting whitespace keeps a non-whitespace first character in front. */
  lemma RemoveSpacesHead(s: string)
    requires s != [] && !IsSpace(s[0])
    ensures RemoveSpaces(s) == [s[0]] + RemoveSpaces(s[1..])
  {
  }

  /** Index of the first whitespace character of `s`, or `|s|` when there is none. */
  function FirstSpace(s: string): (k: nat)
    ensures k <= |s| && NoSpace(s[..k])
    ensures k < |s| ==> IsSpace(s[k])
  {
    if s == [] || IsSpace(s[0]) then 0
    else
      var k := FirstSpace(s[1..]);
      assert s[..k + 1] == [s[0]] + s[1..][..k];
      k + 1
  }

  /** `s.split(/\s+/)`: the pieces between maximal runs of whitespace, keeping empty pieces at the ends. */
  function SplitOnSpaces(s: string): (parts: seq<string>)
    ensures |parts| >= 1
    decreases |s|
  {
    var k := FirstSpace(s);
    if k == |s| then [s]
    else
      var rest := TrimStart(s[k..]);
      assert rest == TrimStart(s[k..][1..]);
      [s[..k]] + SplitOnSpaces(rest)
  }

  /** `parts.join("")` */
  function Concat(parts: seq<string>): (r: string)
  {
    if parts == [] then [] else parts[0] + Concat(parts[1..])
  }

  /** Deleting whitespace from text that has a whitespace-free head, then blank text, then a tail. */
  lemma RemoveSpacesAround(head: string, blank: string, tail: string)
    requires NoSpace(head) && IsBlank(blank)
    ensures RemoveSpaces(head + (blank + tail)) == head + RemoveSpaces(tail)
  {
    FilterAppend(head, blank + tail, NotSpace);
    FilterAppend(blank, tail, NotSpace);
    FilterKeepsAll(head, NotSpace);
    FilterDropsAll(blank, NotSpace);
  }

  /** Text around its first whitespace character: a whitespace-free head, a blank run, and the rest. */
  lemma FirstSpaceSplits(s: string) returns (blank: string)
    requires FirstSpace(s) < |s|
    ensures s == s[..FirstSpace(s)] + (blank + TrimStart(s[FirstSpace(s)..]))
    ensures IsBlank(blank)
  {
    var k := FirstSpace(s);
    blank := TrimStartSplits(s[k..]);
    assert s == s[..k] + s[k..];
  }

  /** Splitting on whitespace and joining with "" deletes exactly the whitespace. */
  lemma {:induction false} SplitThenConcat(s: string)
    ensures Concat(SplitOnSpaces(s)) == RemoveSpaces(s)
    decreases |s|
  {
    var k := FirstSpace(s);
    if k == |s| {
      assert s[..k] == s;
      FilterKeepsAll(s, NotSpace);
    } else {
      var rest := TrimStart(s[k..]);
      var blank := FirstSpaceSplits(s);
      SplitThenConcat(rest);
      RemoveSpacesAround(s[..k], blank, rest);
    }
  }
}
