/**
 * The few pieces of the C and C++ standard libraries the widgets and the
 * network screen lean on: `std::string::find`, `std::string::substr`, an
 * ASCII `toupper`, `atoi` and the chunking that `fgets` performs.
 *
 * A `std::size_t` position that the source stores into an `int` (as in
 * `int trim = s.find("\n")`) is modelled as an `int`; `std::string::npos`
 * becomes `NotFound`, that is -1.
 */
module CppString {

  /** `std::string::npos` once it has been stored into an `int`. */
  const NotFound: int := -1

  /** `pat` occurs in `s` starting at index `i`. */
  predicate OccursAt(s: string, pat: string, i: int) {
    0 <= i && i + |pat| <= |s| && s[i..i + |pat|] == pat
  }

  /** `s.find(pat, from)`: the first occurrence of `pat` at or after `from`. */
  function FindFrom(s: string, pat: string, from: nat): (r: int)
    decreases |s| - from
    ensures r == NotFound || (from <= r && OccursAt(s, pat, r))
    ensures r == NotFound ==> forall i :: from <= i ==> !OccursAt(s, pat, i)
    ensures r != NotFound ==> forall i :: from <= i < r ==> !OccursAt(s, pat, i)
  {
    if from + |pat| > |s| then NotFound
    else if s[from..from + |pat|] == pat then from
    else FindFrom(s, pat, from + 1)
  }

  /** `s.find(pat)`: the index of the first occurrence of `pat`, or `NotFound`. */
  function Find(s: string, pat: string): (r: int)
    ensures r == NotFound || OccursAt(s, pat, r)
    ensures r == NotFound <==> forall i :: !OccursAt(s, pat, i)
    ensures r != NotFound ==> forall i :: 0 <= i < r ==> !OccursAt(s, pat, i)
  {
    FindFrom(s, pat, 0)
  }

  /** An occurrence with none before it is what `find` returns. */
  lemma FindFirst(s: string, pat: string, k: nat)
    requires OccursAt(s, pat, k)
    requires forall i :: 0 <= i < k ==> !OccursAt(s, pat, i)
    ensures Find(s, pat) == k
  {
  }

  /** An occurrence before which the pattern's first character never appears is what `find` returns. */
  lemma FindByFirstChar(s: string, pat: string, k: nat)
    requires pat != [] && OccursAt(s, pat, k)
    requires forall i :: 0 <= i < k ==> s[i] != pat[0]
    ensures Find(s, pat) == k
  {
    forall i | 0 <= i < k
      ensures !OccursAt(s, pat, i)
    {
      if i + |pat| <= |s| {
        assert s[i..i + |pat|][0] == s[i];
      }
    }
    FindFirst(s, pat, k);
  }

  /** A prefix and the whole string agree on occurrences that fit in the prefix. */
  lemma OccursInPrefix(full: string, head: string, pat: string, i: nat)
    requires |head| <= |full| && head == full[..|head|] && i + |pat| <= |head|
    ensures OccursAt(head, pat, i) <==> OccursAt(full, pat, i)
  {
    assert head[i..i + |pat|] == full[i..i + |pat|];
  }

  /** `s.find(pat) != std::string::npos`. */
  predicate Contains(s: string, pat: string) {
    Find(s, pat) != NotFound
  }

  /**
   * `s.substr(pos, count)`.  The source passes `int` counts that may be
   * negative; converted to `std::size_t` they exceed the length of any
   * string, so a negative `count` takes the rest of `s`, as does a count
   * that runs past its end.  `pos` beyond the end throws `out_of_range`
   * in C++, so it is a precondition here.
   */
  function Substr(s: string, pos: nat, count: int): (r: string)
    requires pos <= |s|
    ensures |r| == if 0 <= count <= |s| - pos then count else |s| - pos
    ensures r == s[pos..pos + |r|]
  {
    if 0 <= count <= |s| - pos then s[pos..pos + count] else s[pos..]
  }

  /** The classic ASCII `toupper` of the "C" locale. */
  function UpperChar(c: char): (u: char)
    ensures 'a' <= c <= 'z' ==> u as int == c as int - 32
    ensures !('a' <= c <= 'z') ==> u == c
  {
    if 'a' <= c <= 'z' then (c as int - 32) as char else c
  }

  predicate IsLowerAscii(c: char) {
    'a' <= c <= 'z'
  }

  /** `strToUpper`: every character passed through `toupper`. */
  function ToUpper(s: string): (r: string)
    ensures |r| == |s|
  {
    if s == [] then [] else [UpperChar(s[0])] + ToUpper(s[1..])
  }

  lemma {:induction false} ToUpperAt(s: string, i: nat)
    requires i < |s|
    ensures ToUpper(s)[i] == UpperChar(s[i])
  {
    if i > 0 {
      ToUpperAt(s[1..], i - 1);
    }
  }

  /** The upper-cased text holds no lower-case ASCII letter. */
  lemma ToUpperHasNoLower(s: string)
    ensures forall i :: 0 <= i < |s| ==> !IsLowerAscii(ToUpper(s)[i])
  {
    forall i | 0 <= i < |s| ensures !IsLowerAscii(ToUpper(s)[i]) {
      ToUpperAt(s, i);
    }
  }

  /** Upper-casing twice is upper-casing once. */
  lemma {:induction false} ToUpperIdempotent(s: string)
    ensures ToUpper(ToUpper(s)) == ToUpper(s)
  {
    if s != [] {
      ToUpperIdempotent(s[1..]);
    }
  }

  /** A text with no lower-case ASCII letter is left as it is. */
  lemma {:induction false} ToUpperFixesUpper(s: string)
    requires forall i :: 0 <= i < |s| ==> !IsLowerAscii(s[i])
    ensures ToUpper(s) == s
  {
    if s != [] {
      ToUpperFixesUpper(s[1..]);
    }
  }

  predicate IsDigit(c: char) {
    '0' <= c <= '9'
  }

  /** The white-space characters `isspace` accepts in the "C" locale. */
  predicate IsSpace(c: char) {
    c == ' ' || c == '\t' || c == '\n' || c == '\r' || c == '\U{0B}' || c == '\U{0C}'
  }

  function DigitValue(c: char): nat
    requires IsDigit(c)
  {
    c as int - '0' as int
  }

  /**
   * The value of the decimal digits at the start of `s`, read most
   * significant first onto the value `acc` of the digits already read.
   */
  function LeadingValue(s: string, acc: nat): nat {
    if s != [] && IsDigit(s[0]) then LeadingValue(s[1..], 10 * acc + DigitValue(s[0])) else acc
  }

  function SkipSpace(s: string): (r: string)
    ensures |r| <= |s| && r == s[|s| - |r|..]
    ensures r != [] ==> !IsSpace(r[0])
  {
    if s != [] && IsSpace(s[0]) then SkipSpace(s[1..]) else s
  }

  /**
   * `atoi`: leading white space, an optional sign, then as many decimal
   * digits as follow; 0 when there are none.  (Overflow is undefined in C;
   * the texts the source converts are at most two characters long.)
   */
  function Atoi(s: string): int {
    var t := SkipSpace(s);
    if t != [] && t[0] == '-' then 0 - LeadingValue(t[1..], 0)
    else if t != [] && t[0] == '+' then LeadingValue(t[1..], 0)
    else LeadingValue(t, 0)
  }

  /** `atoi` of a text that starts with a digit is the value of its leading digits. */
  lemma AtoiDigits(s: string)
    requires s != [] && IsDigit(s[0])
    ensures Atoi(s) == LeadingValue(s, 0)
  {
    assert !IsSpace(s[0]);
    assert SkipSpace(s) == s;
  }

  /** `atoi` of two decimal digits is their two-digit value. */
  lemma AtoiTwoDigits(a: char, b: char)
    requires IsDigit(a) && IsDigit(b)
    ensures Atoi([a, b]) == 10 * DigitValue(a) + DigitValue(b)
  {
    var s := [a, b];
    AtoiDigits(s);
    assert s[1..] == [b];
    assert [b][1..] == [];
    assert LeadingValue(s, 0) == LeadingValue([b], DigitValue(a));
    assert LeadingValue([b], DigitValue(a)) == LeadingValue([], 10 * DigitValue(a) + DigitValue(b));
  }

  /** `atoi` of a text that starts with something other than a sign or a digit is 0. */
  lemma AtoiNoDigits(s: string)
    requires s == [] || (!IsSpace(s[0]) && !IsDigit(s[0]) && s[0] != '-' && s[0] != '+')
    ensures Atoi(s) == 0
  {
  }

  /**
   * The text one `fgets(buffer, size, stream)` call stores, for a stream
   * whose remaining contents are `s`: at most `size - 1` characters,
   * stopping after the first newline.
   */
  function FgetsChunk(s: string, size: nat): (r: string)
    ensures |r| <= |s| && r == s[..|r|]
    ensures size <= 1 ==> r == []
    ensures size > 1 ==> |r| <= size - 1
    ensures forall i :: 0 <= i < |r| - 1 ==> r[i] != '\n'
    decreases size
  {
    if s == [] || size <= 1 then []
    else if s[0] == '\n' then ['\n']
    else [s[0]] + FgetsChunk(s[1..], size - 1)
  }
}
