/** The text layer of the line protocol (protocol.cpp, client_common.cpp): trimming, command and
    word splitting, and decimal numbers as `std::to_string` prints and `std::from_chars` reads
    them.  A `std::string` is a sequence of bytes; here it is a sequence of characters, one per
    byte.  Only percent coding depends on a byte being below 256. */
module Text {

  datatype Option<+T> = None | Some(value: T)

  type Bytes = string

  const UINT64_LIMIT: nat := 0x1_0000_0000_0000_0000

  /** The sum of two 64-bit numbers, with wrap-around. */
  function Sum64(a: nat, b: nat): nat {
    if a + b >= UINT64_LIMIT then a + b - UINT64_LIMIT else a + b
  }

  // ---- limits and helpers that client and server share ----------------------------------------

  const MAX_FILE_SIZE: nat := 0x19_0000_0000         // kMaxFileSize, 100 GiB
  const FILE_FRAME_BYTES: nat := 0x100_0000          // kFileFrameBytes, 16 MiB

  type Digest = Bytes -> Bytes

  /** A line without the carriage return that may end it. */
  function StripReturn(line: Bytes): Bytes {
    if line != [] && line[|line| - 1] == '\r' then line[..|line| - 1] else line
  }

  /** One carriage return is dropped, and only at the end. */
  lemma ReturnStripped(line: Bytes)
    ensures StripReturn(line + "\r") == line
    ensures StripReturn(line) == line || line == StripReturn(line) + "\r"
    ensures line == [] || line[|line| - 1] != '\r' ==> StripReturn(line) == line
  {
    assert (line + "\r")[..|line|] == line;
    if StripReturn(line) != line {
      assert line == line[..|line| - 1] + [line[|line| - 1]];
    }
  }

  // ---- searching ----------------------------------------------------------------------------

  /** Position of the first `c` in `s`, or |s| when there is none. */
  function IndexOf(s: Bytes, c: char): (r: nat)
    ensures r <= |s|
    ensures r < |s| ==> s[r] == c
    ensures forall i :: 0 <= i < r ==> s[i] != c
  {
    if s == [] || s[0] == c then 0 else 1 + IndexOf(s[1..], c)
  }

  lemma {:induction false} IndexOfAppend(s: Bytes, t: Bytes, c: char)
    requires c in s
    ensures IndexOf(s + t, c) == IndexOf(s, c) < |s|
  {
    if s[0] != c {
      assert (s + t)[1..] == s[1..] + t;
      IndexOfAppend(s[1..], t, c);
    }
  }

  /** The first `c` of `s + [c] + t` is the one in the middle when `s` has none. */
  lemma IndexOfMiddle(s: Bytes, c: char, t: Bytes)
    requires c !in s
    ensures IndexOf(s + [c] + t, c) == |s|
  {
    var whole := s + [c] + t;
    assert whole[|s|] == c;
    assert forall i :: 0 <= i < |s| ==> whole[i] == s[i];
  }

  lemma IndexOfLater(s: Bytes, t: Bytes, c: char)
    requires c !in s
    ensures IndexOf(s + t, c) >= |s|
  {
    assert forall i :: 0 <= i < |s| ==> (s + t)[i] == s[i] && s[i] in s;
  }

  // ---- trimming and splitting ---------------------------------------------------------------

  predicate IsSpace(c: char) { c == ' ' || '\t' <= c <= '\r' }

  predicate IsBlank(c: char) { c == ' ' || c == '\t' }

  predicate NoSpaces(s: Bytes) { forall i :: 0 <= i < |s| ==> !IsSpace(s[i]) }

  predicate IsWord(s: Bytes) { s != [] && NoSpaces(s) }

  function TrimLeft(s: Bytes): (r: Bytes)
    ensures |r| <= |s|
    ensures r == [] || !IsSpace(r[0])
    ensures s != [] && !IsSpace(s[0]) ==> r == s
  {
    if s != [] && IsSpace(s[0]) then TrimLeft(s[1..]) else s
  }

  function TrimRight(s: Bytes): (r: Bytes)
    ensures |r| <= |s|
    ensures r == [] || !IsSpace(r[|r| - 1])
    ensures s != [] && !IsSpace(s[|s| - 1]) ==> r == s
  {
    if s != [] && IsSpace(s[|s| - 1]) then TrimRight(s[..|s| - 1]) else s
  }

  function Trim(s: Bytes): Bytes { TrimRight(TrimLeft(s)) }

  /** A text that neither starts nor ends with white space is left alone. */
  lemma TrimTight(s: Bytes)
    requires s == [] || (!IsSpace(s[0]) && !IsSpace(s[|s| - 1]))
    ensures Trim(s) == s
  {
  }

  /** Length of the leading run of non-blank characters (`find_first_of(" \t")`). */
  function BlankIndex(s: Bytes): (r: nat)
    ensures r <= |s|
    ensures r < |s| ==> IsBlank(s[r])
    ensures forall i :: 0 <= i < r ==> !IsBlank(s[i])
  {
    if s == [] || IsBlank(s[0]) then 0 else 1 + BlankIndex(s[1..])
  }

  function ToUpper(c: char): char {
    if 'a' <= c <= 'z' then (c as int - 32) as char else c
  }

  function ToUpperAll(s: Bytes): (r: Bytes)
    ensures |r| == |s|
    ensures forall i :: 0 <= i < |s| ==> r[i] == ToUpper(s[i])
  {
    seq(|s|, i requires 0 <= i < |s| => ToUpper(s[i]))
  }

  datatype Command = Command(name: Bytes, arguments: Bytes)

  function ParseCommand(line: Bytes): Command {
    var cleaned := Trim(line);
    var separator := BlankIndex(cleaned);
    if separator == |cleaned| then
      Command(ToUpperAll(cleaned), [])
    else
      Command(ToUpperAll(cleaned[..separator]), Trim(cleaned[separator + 1..]))
  }

  predicate IsUpperWord(s: Bytes) {
    IsWord(s) && forall i :: 0 <= i < |s| ==> !('a' <= s[i] <= 'z')
  }

  /** A printed command line `NAME arguments` parses back to its two parts. */
  lemma ParsePrintedCommand(name: Bytes, arguments: Bytes)
    requires IsUpperWord(name)
    requires arguments != [] && !IsSpace(arguments[0]) && !IsSpace(arguments[|arguments| - 1])
    ensures ParseCommand(name + " " + arguments) == Command(name, arguments)
  {
    var line := name + " " + arguments;
    assert line[0] == name[0] && line[|line| - 1] == arguments[|arguments| - 1];
    TrimTight(line);
    assert line[|name|] == ' ';
    assert forall i :: 0 <= i < |name| ==> line[i] == name[i];
    var r := BlankIndex(line);
    assert r == |name|;
    assert line[..r] == name && line[r + 1..] == arguments;
    assert ToUpperAll(name) == name;
    TrimTight(arguments);
  }

  /** Two spellings of a name, whatever their case. */
  predicate SameLetters(a: Bytes, b: Bytes) {
    |a| == |b| && forall i :: 0 <= i < |a| ==>
      a[i] == b[i] || ('a' <= a[i] <= 'z' && b[i] as int == a[i] as int - 32)
  }

  /** A command may be typed in any case, with white space around it and behind its name. */
  lemma CommandAsTyped(before: Bytes, typed: Bytes, name: Bytes, blank: char, gap: Bytes, arguments: Bytes,
                       after: Bytes)
    requires IsWord(typed) && IsUpperWord(name) && SameLetters(typed, name) && (blank == ' ' || blank == '\t')
    requires arguments != [] && !IsSpace(arguments[0]) && !IsSpace(arguments[|arguments| - 1])
    requires forall i :: 0 <= i < |before| ==> IsSpace(before[i])
    requires forall i :: 0 <= i < |gap| ==> IsSpace(gap[i])
    requires forall i :: 0 <= i < |after| ==> IsSpace(after[i])
    ensures ParseCommand(before + (typed + [blank] + (gap + arguments)) + after) == Command(name, arguments)
  {
    var rest := gap + arguments;
    var line := typed + [blank] + rest;
    assert line[0] == typed[0] && line[|line| - 1] == rest[|rest| - 1] == arguments[|arguments| - 1];
    TrimAround(before, line, after);
    assert line[|typed|] == blank;
    assert forall i :: 0 <= i < |typed| ==> line[i] == typed[i];
    var r := BlankIndex(line);
    assert r == |typed|;
    assert line[..r] == typed && line[r + 1..] == rest;
    assert ToUpperAll(typed) == name;
    TrimAround(gap, arguments, []);
    assert gap + arguments + [] == rest;
  }

  /** White space around a text is dropped, and nothing else. */
  lemma TrimAround(before: Bytes, s: Bytes, after: Bytes)
    requires s != [] && !IsSpace(s[0]) && !IsSpace(s[|s| - 1])
    requires forall i :: 0 <= i < |before| ==> IsSpace(before[i])
    requires forall i :: 0 <= i < |after| ==> IsSpace(after[i])
    ensures Trim(before + s + after) == s
  {
    LeftAround(before, s + after);
    assert before + s + after == before + (s + after);
    RightAround(s, after);
  }

  lemma {:induction false} LeftAround(before: Bytes, s: Bytes)
    requires s != [] && !IsSpace(s[0]) && forall i :: 0 <= i < |before| ==> IsSpace(before[i])
    ensures TrimLeft(before + s) == s
    decreases |before|
  {
    if before == [] {
      assert before + s == s;
    } else {
      assert (before + s)[0] == before[0] && (before + s)[1..] == before[1..] + s;
      LeftAround(before[1..], s);
    }
  }

  lemma {:induction false} RightAround(s: Bytes, after: Bytes)
    requires s != [] && !IsSpace(s[|s| - 1]) && forall i :: 0 <= i < |after| ==> IsSpace(after[i])
    ensures TrimRight(s + after) == s
    decreases |after|
  {
    if after == [] {
      assert s + after == s;
    } else {
      var all, n := s + after, |s + after|;
      assert all[n - 1] == after[|after| - 1] && all[..n - 1] == s + after[..|after| - 1];
      RightAround(s, after[..|after| - 1]);
    }
  }

  function WordLength(s: Bytes): (r: nat)
    ensures r <= |s|
    ensures r < |s| ==> IsSpace(s[r])
    ensures forall i :: 0 <= i < r ==> !IsSpace(s[i])
  {
    if s == [] || IsSpace(s[0]) then 0 else 1 + WordLength(s[1..])
  }

  function SplitWords(s: Bytes): seq<Bytes>
    decreases |s|
  {
    var t := TrimLeft(s);
    if t == [] then [] else
      var n := WordLength(t);
      assert n > 0;
      [t[..n]] + SplitWords(t[n..])
  }

  lemma SplitLastWord(w: Bytes)
    requires IsWord(w)
    ensures SplitWords(w) == [w]
  {
    assert TrimLeft(w) == w;
    assert WordLength(w) == |w|;
    assert w[..|w|] == w && w[|w|..] == [];
    assert SplitWords([]) == [];
  }

  lemma SplitFirstWord(w: Bytes, rest: Bytes)
    requires IsWord(w)
    ensures SplitWords(w + " " + rest) == [w] + SplitWords(rest)
  {
    var s := w + " " + rest;
    assert s[0] == w[0];
    assert TrimLeft(s) == s;
    assert s[|w|] == ' ';
    assert forall i :: 0 <= i < |w| ==> s[i] == w[i];
    var n := WordLength(s);
    assert n == |w|;
    assert s[..n] == w;
    assert s[n..] == " " + rest;
    assert (" " + rest)[1..] == rest;
    assert TrimLeft(" " + rest) == TrimLeft(rest);
  }

  // ---- decimal numbers ----------------------------------------------------------------------

  predicate IsDigit(c: char) { '0' <= c <= '9' }

  predicate AllDigits(s: Bytes) { forall i :: 0 <= i < |s| ==> IsDigit(s[i]) }

  function DigitValue(c: char): nat
    requires IsDigit(c)
  {
    c as int - '0' as int
  }

  function DigitsValue(s: Bytes): nat
    requires AllDigits(s)
  {
    if s == [] then 0 else 10 * DigitsValue(s[..|s| - 1]) + DigitValue(s[|s| - 1])
  }

  /** `std::to_string`: digits only, never empty, and denoting the number. */
  function ToDecimal(n: nat): (s: Bytes)
    ensures s != [] && AllDigits(s) && DigitsValue(s) == n
  {
    var last := ('0' as int + n % 10) as char;
    if n < 10 then
      assert [last][..0] == [];
      [last]
    else
      var front := ToDecimal(n / 10);
      assert (front + [last])[..|front|] == front;
      front + [last]
  }

  /** `parse_uint64`: all characters must be digits and the value must fit 64 bits. */
  function ParseUint64(s: Bytes): Option<nat> {
    if s == [] || !AllDigits(s) || DigitsValue(s) >= UINT64_LIMIT then None
    else Some(DigitsValue(s))
  }

  /** Only digits make a number; leading zeros do not matter, and a number that does not fit 64 bits is
      refused. */
  lemma ParseUint64Exact(s: Bytes)
    ensures s == [] || (exists i :: 0 <= i < |s| && !IsDigit(s[i])) ==> ParseUint64(s).None?
    ensures s != [] ==> ParseUint64("0" + s) == ParseUint64(s)
    ensures s != [] && AllDigits(s) ==> (ParseUint64(s).Some? <==> DigitsValue(s) < UINT64_LIMIT)
  {
    assert AllDigits("0" + s) <==> AllDigits(s) by {
      assert forall i :: 0 <= i < |s| ==> ("0" + s)[i + 1] == s[i];
    }
    if AllDigits(s) {
      ZeroFirst(s);
    }
  }

  lemma {:induction false} ZeroFirst(s: Bytes)
    requires AllDigits(s)
    ensures AllDigits("0" + s) && DigitsValue("0" + s) == DigitsValue(s)
  {
    if s == [] {
      assert "0" + s == "0" && "0"[..0] == [];
    } else {
      ZeroFirst(s[..|s| - 1]);
      assert ("0" + s)[..|s|] == "0" + s[..|s| - 1];
    }
  }

  lemma DecimalRoundTrip(n: nat)
    ensures IsWord(ToDecimal(n))
    ensures ParseUint64(ToDecimal(n)) == if n < UINT64_LIMIT then Some(n) else None
  {
    var s := ToDecimal(n);
    forall i | 0 <= i < |s| ensures !IsSpace(s[i]) {
      assert IsDigit(s[i]);
    }
  }
}
