/** A byte stream in which text lines and raw payloads follow one another, in either direction. */
module Units {
  import opened Text

  /** A stream at the receiver's grain: single lines, and frames. */
  datatype Unit = Line(text: Bytes) | Chunk(header: Bytes, payload: Bytes)

  function UnitBytes(u: Unit): Bytes {
    match u
    case Line(text) => text + "\n"
    case Chunk(header, payload) => header + payload
  }

  function UnitsBytes(units: seq<Unit>): Bytes {
    if units == [] then [] else UnitBytes(units[0]) + UnitsBytes(units[1..])
  }

  /** The next line of the stream ends at the buffer's first newline. */
  lemma NextLine(buffer: Bytes, future: Bytes, line: Bytes, rest: Bytes)
    requires '\n' in buffer && '\n' !in line && buffer + future == line + "\n" + rest
    ensures IndexOf(buffer, '\n') == |line| < |buffer| && buffer[..|line|] == line
    ensures buffer[|line| + 1..] + future == rest
  {
    IndexOfAppend(buffer, future, '\n');
    IndexOfMiddle(line, '\n', rest);
    hide IndexOf;
    var whole, n := buffer + future, |line|;
    assert buffer[..n] == whole[..n] && line == (line + "\n" + rest)[..n];
    assert buffer[n + 1..] + future == whole[n + 1..] && rest == (line + "\n" + rest)[n + 1..];
  }

  lemma FirstUnit(units: seq<Unit>)
    requires UnitsBytes(units) != []
    ensures units != [] && UnitsBytes(units) == UnitBytes(units[0]) + UnitsBytes(units[1..])
  {
  }

  /** What was received of a line is a prefix of it. */
  lemma CutBefore(buffer: Bytes, future: Bytes, line: Bytes, rest: Bytes)
    requires '\n' !in buffer && buffer + future == line + "\n" + rest
    ensures |buffer| <= |line| && buffer == line[..|buffer|]
  {
    var whole := buffer + future;
    assert whole[|line|] == '\n';
    assert whole[..|buffer|] == buffer;
  }

  /** Taking the first `count` of `n` payload bytes leaves the other payload bytes and the rest. */
  lemma PayloadCut(buffer: Bytes, future: Bytes, count: nat, n: nat, content: Bytes, offset: nat)
    requires count <= n <= |buffer + future| && count <= |buffer| && offset + n <= |content|
    requires (buffer + future)[..n] == content[offset..offset + n]
    ensures buffer[..count] == content[offset..offset + count]
    ensures var rest := buffer[count..] + future;
            && n - count <= |rest| && rest[n - count..] == (buffer + future)[n..]
            && rest[..n - count] == content[offset + count..offset + n]
  {
    var unread, rest := buffer + future, buffer[count..] + future;
    assert rest == unread[count..];
    assert buffer[..count] == unread[..n][..count];
    assert content[offset..offset + n][..count] == content[offset..offset + count];
    assert rest[..n - count] == unread[..n][count..];
    assert content[offset..offset + n][count..] == content[offset + count..offset + n];
  }
}
