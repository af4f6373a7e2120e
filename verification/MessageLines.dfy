/** Chat message lines: as the server prints them (chat_server.cpp) and as the client's cache reads
    them (client_message_cache.cpp). */
module MessageLines {
  import opened Text
  import opened Percent

  datatype PrivateMessage = PrivateMessage(id: nat, peer: Bytes, outgoing: bool, offline: bool, content: Bytes)

  datatype GroupMessage = GroupMessage(id: nat, group: Bytes, sender: Bytes, offline: bool, content: Bytes)

  predicate IsNameChar(c: char) { IsAlnum(c) || c == '_' }

  /** `is_valid_username` */
  predicate ValidUsername(s: Bytes) { 3 <= |s| <= 20 && forall i :: 0 <= i < |s| ==> IsNameChar(s[i]) }

  /** `is_valid_group_name` */
  predicate ValidGroupName(s: Bytes) { 2 <= |s| <= 32 && forall i :: 0 <= i < |s| ==> IsNameChar(s[i]) || s[i] == '-' }

  const FROM: Bytes := " [private from "
  const LEGACY_FROM: Bytes := " [private\U{EF}\U{BC}\U{8C}\U{E6}\U{9D}\U{A5}\U{E6}\U{BA}\U{90}\U{EF}\U{BC}\U{9A}"
  const TO: Bytes := " [private to "
  const IN_GROUP: Bytes := " [group "

  // ---- printing -----------------------------------------------------------------------------

  function Tag(offline: bool, group: bool): Bytes {
    if offline then (if group then "[offline #G" else "[offline #") else (if group then "[#G" else "[#")
  }

  function PrivateLine(m: PrivateMessage): Bytes
    requires IsBytes(m.content)
  {
    Tag(m.offline, false)
    + (ToDecimal(m.id) + "]" + ((if m.outgoing then TO else FROM) + (m.peer + "] " + Encode(m.content))))
  }

  function GroupLine(m: GroupMessage): Bytes
    requires IsBytes(m.content)
  {
    Tag(m.offline, true)
    + (ToDecimal(m.id) + "]" + (IN_GROUP + (m.group + "] [" + (m.sender + "] " + Encode(m.content)))))
  }

  /** A public message is broadcast as it was typed. */
  function PublicLine(id: nat, sender: Bytes, content: Bytes): Bytes {
    "[#" + (ToDecimal(id) + "]" + (" [" + (sender + "] " + content)))
  }

  // ---- reading ------------------------------------------------------------------------------

  /** `std::string::find` */
  function Find(s: Bytes, pattern: Bytes): (r: Option<nat>)
    ensures r.Some? ==> r.value + |pattern| <= |s| && pattern <= s[r.value..]
  {
    if pattern <= s then Some(0)
    else if s == [] then None
    else
      var r := Find(s[1..], pattern);
      if r.None? then None else Some(r.value + 1)
  }

  /** The number up to the first bracket, and what follows it. */
  function ParseId(s: Bytes): Option<(nat, Bytes)> {
    var end := IndexOf(s, ']');
    if end == |s| then None
    else
      var id := ParseUint64(s[..end]);
      if id.None? then None else Some((id.value, s[end + 1..]))
  }

  /** Content that cannot be decoded is kept as it is. */
  function Content(encoded: Bytes): Bytes {
    var decoded := DecodeToken(encoded);
    if decoded.Some? then decoded.value else encoded
  }

  function ParsePeer(id: nat, s: Bytes, outgoing: bool, offline: bool): Option<PrivateMessage> {
    var end := Find(s, "] ");
    if end.None? || end.value == 0 then None
    else Some(PrivateMessage(id, s[..end.value], outgoing, offline, Content(s[end.value + 2..])))
  }

  function ParsePrivateTail(s: Bytes, offline: bool): Option<PrivateMessage> {
    var id := ParseId(s);
    if id.None? then None
    else
      var rest := id.value.1;
      if FROM <= rest then ParsePeer(id.value.0, rest[|FROM|..], false, offline)
      else if LEGACY_FROM <= rest then ParsePeer(id.value.0, rest[|LEGACY_FROM|..], false, offline)
      else if TO <= rest then ParsePeer(id.value.0, rest[|TO|..], true, offline)
      else None
  }

  /** `parse_private_message_line` for a client that is logged in */
  function ParsePrivate(line: Bytes): Option<PrivateMessage> {
    if "[offline #" <= line then ParsePrivateTail(line[10..], true)
    else if "[#" <= line && !("[#G" <= line) then ParsePrivateTail(line[2..], false)
    else None
  }

  function ParseSender(id: nat, group: Bytes, s: Bytes, offline: bool): Option<GroupMessage> {
    var end := Find(s, "] ");
    if end.None? || end.value == 0 || group == [] then None
    else Some(GroupMessage(id, group, s[..end.value], offline, Content(s[end.value + 2..])))
  }

  function ParseGroupTail(s: Bytes, offline: bool): Option<GroupMessage> {
    var id := ParseId(s);
    if id.None? || !(IN_GROUP <= id.value.1) then None
    else
      var rest := id.value.1[|IN_GROUP|..];
      var end := Find(rest, "] [");
      if end.None? then None
      else ParseSender(id.value.0, rest[..end.value], rest[end.value + 3..], offline)
  }

  /** `parse_group_message_line` for a client that is logged in */
  function ParseGroup(line: Bytes): Option<GroupMessage> {
    if "[offline #G" <= line then ParseGroupTail(line[11..], true)
    else if "[#G" <= line then ParseGroupTail(line[3..], false)
    else None
  }

  // ---- round trips --------------------------------------------------------------------------

  /** A pattern is found right behind a text without its first character. */
  lemma {:induction false} FindBehind(name: Bytes, pattern: Bytes, rest: Bytes)
    requires pattern != [] && pattern[0] !in name
    ensures Find(name + pattern + rest, pattern) == Some(|name|)
    ensures (name + pattern + rest)[..|name|] == name && (name + pattern + rest)[|name| + |pattern|..] == rest
  {
    var s := name + pattern + rest;
    if name == [] {
      assert s == pattern + rest;
    } else {
      assert s[0] == name[0] != pattern[0];
      assert s[1..] == name[1..] + pattern + rest;
      FindBehind(name[1..], pattern, rest);
    }
  }

  lemma IdRead(id: nat, rest: Bytes)
    requires id < UINT64_LIMIT
    ensures ParseId(ToDecimal(id) + "]" + rest) == Some((id, rest))
  {
    var number := ToDecimal(id);
    DecimalRoundTrip(id);
    assert ']' !in number by {
      assert forall i :: 0 <= i < |number| ==> IsDigit(number[i]);
    }
    hide ToDecimal, ParseUint64;
    var s := number + "]" + rest;
    IndexOfMiddle(number, ']', rest);
    assert s[..|number|] == number && s[|number| + 1..] == rest;
  }

  lemma ContentRead(content: Bytes)
    requires IsBytes(content)
    ensures Content(Encode(content)) == if content == "-" then "" else content
  {
    TokenRoundTrip(content);
    DecodeEncode(content);
    if content == "-" {
      assert content[1..] == [];
      assert Encode(content) == "-";
    }
  }

  lemma NoBracket(name: Bytes)
    requires ValidUsername(name) || ValidGroupName(name)
    ensures ']' !in name && name != []
  {
    assert forall i :: 0 <= i < |name| ==> name[i] != ']';
  }

  lemma PeerRead(id: nat, peer: Bytes, outgoing: bool, offline: bool, content: Bytes)
    requires ValidUsername(peer) && IsBytes(content)
    ensures ParsePeer(id, peer + "] " + Encode(content), outgoing, offline)
            == Some(PrivateMessage(id, peer, outgoing, offline, if content == "-" then "" else content))
  {
    NoBracket(peer);
    FindBehind(peer, "] ", Encode(content));
    ContentRead(content);
    hide Encode, Content, Find;
  }

  lemma MarkersDiffer(tail: Bytes)
    ensures !(FROM <= TO + tail) && !(LEGACY_FROM <= TO + tail)
    ensures (FROM + tail)[|FROM|..] == tail && (TO + tail)[|TO|..] == tail && FROM <= FROM + tail && TO <= TO + tail
  {
    assert (TO + tail)[10] == 't' && FROM[10] == 'f';
    assert (TO + tail)[9] == ' ' && LEGACY_FROM[9] != ' ';
  }

  lemma PrivateTail(id: nat, tail: Bytes, outgoing: bool, offline: bool)
    requires id < UINT64_LIMIT
    ensures ParsePrivateTail(ToDecimal(id) + "]" + ((if outgoing then TO else FROM) + tail), offline)
            == ParsePeer(id, tail, outgoing, offline)
  {
    MarkersDiffer(tail);
    IdRead(id, (if outgoing then TO else FROM) + tail);
    hide ToDecimal, ParseId, ParsePeer;
  }

  /** How the start of a line decides which reader sees the rest. */
  lemma PrivateTags(rest: Bytes)
    ensures ParsePrivate("[offline #" + rest) == ParsePrivateTail(rest, true)
    ensures rest != [] && rest[0] != 'G' ==> ParsePrivate("[#" + rest) == ParsePrivateTail(rest, false)
  {
    hide ParsePrivateTail;
    assert ("[offline #" + rest)[10..] == rest;
    if rest != [] && rest[0] != 'G' {
      var line := "[#" + rest;
      assert line[1] == '#' && "[offline #"[1] == 'o';
      assert line[2] == rest[0];
      assert line[2..] == rest;
    }
  }

  /** A printed private line, live or offline, sent or received, is read back as itself, except that
      the single byte "-" is read as an empty text. */
  lemma PrivateRoundTrip(m: PrivateMessage)
    requires m.id < UINT64_LIMIT && ValidUsername(m.peer) && IsBytes(m.content)
    ensures ParsePrivate(PrivateLine(m)) == Some(m.(content := if m.content == "-" then "" else m.content))
    ensures ParsePrivate(PrivateLine(m)) == Some(m) <==> m.content != "-"
  {
    DigitFirst(m.id);
    PeerRead(m.id, m.peer, m.outgoing, m.offline, m.content);
    var tail := m.peer + "] " + Encode(m.content);
    PrivateTail(m.id, tail, m.outgoing, m.offline);
    hide ToDecimal, Encode, ParsePrivate, ParsePrivateTail, ParsePeer;
    var rest := ToDecimal(m.id) + "]" + ((if m.outgoing then TO else FROM) + tail);
    assert rest[0] == ToDecimal(m.id)[0];
    PrivateTags(rest);
  }

  /** Lines of the older form, from before the server spoke English, are read the same way. */
  lemma LegacyRead(id: nat, peer: Bytes, offline: bool, content: Bytes)
    requires id < UINT64_LIMIT && ValidUsername(peer) && IsBytes(content)
    ensures ParsePrivate(Tag(offline, false) + (ToDecimal(id) + "]" + (LEGACY_FROM + (peer + "] " + Encode(content)))))
            == Some(PrivateMessage(id, peer, false, offline, if content == "-" then "" else content))
  {
    DigitFirst(id);
    PeerRead(id, peer, false, offline, content);
    var tail := peer + "] " + Encode(content);
    LegacyTail(id, tail, offline);
    hide ToDecimal, Encode, ParsePrivate, ParsePrivateTail, ParsePeer;
    var rest := ToDecimal(id) + "]" + (LEGACY_FROM + tail);
    assert rest[0] == ToDecimal(id)[0];
    PrivateTags(rest);
  }

  lemma LegacyTail(id: nat, tail: Bytes, offline: bool)
    requires id < UINT64_LIMIT
    ensures ParsePrivateTail(ToDecimal(id) + "]" + (LEGACY_FROM + tail), offline) == ParsePeer(id, tail, false, offline)
  {
    var rest := LEGACY_FROM + tail;
    assert rest[9] == LEGACY_FROM[9] && FROM[9] == ' ' && LEGACY_FROM[9] != ' ';
    assert rest[|LEGACY_FROM|..] == tail;
    IdRead(id, rest);
    hide ToDecimal, ParseId, ParsePeer;
  }

  /** Content that cannot be decoded is shown as it came. */
  lemma RawContentKept(plain: Bytes, rest: Bytes)
    requires '%' !in plain && (|rest| < 2 || HexValue(rest[0]).None? || HexValue(rest[1]).None?)
    ensures Content(plain + "%" + rest) == plain + "%" + rest
  {
    MalformedRefused(plain, rest);
    hide Decode;
    var all := plain + "%" + rest;
    assert all[|plain|] == '%';
  }

  lemma DigitFirst(id: nat)
    ensures ToDecimal(id) != [] && IsDigit(ToDecimal(id)[0])
  {
  }

  lemma SenderRead(id: nat, group: Bytes, sender: Bytes, offline: bool, content: Bytes)
    requires ValidUsername(sender) && group != [] && IsBytes(content)
    ensures ParseSender(id, group, sender + "] " + Encode(content), offline)
            == Some(GroupMessage(id, group, sender, offline, if content == "-" then "" else content))
  {
    NoBracket(sender);
    FindBehind(sender, "] ", Encode(content));
    ContentRead(content);
    hide Encode, Content, Find;
  }

  lemma GroupTail(id: nat, group: Bytes, who: Bytes, offline: bool)
    requires id < UINT64_LIMIT && ValidGroupName(group)
    ensures ParseGroupTail(ToDecimal(id) + "]" + (IN_GROUP + (group + "] [" + who)), offline)
            == ParseSender(id, group, who, offline)
  {
    var tail := group + "] [" + who;
    IdRead(id, IN_GROUP + tail);
    NoBracket(group);
    FindBehind(group, "] [", who);
    hide ToDecimal, ParseId, ParseSender, Find;
    assert (IN_GROUP + tail)[|IN_GROUP|..] == tail;
  }

  lemma GroupTags(rest: Bytes)
    ensures ParseGroup("[offline #G" + rest) == ParseGroupTail(rest, true)
    ensures ParseGroup("[#G" + rest) == ParseGroupTail(rest, false)
  {
    hide ParseGroupTail;
    assert ("[offline #G" + rest)[11..] == rest && ("[#G" + rest)[3..] == rest;
    assert ("[#G" + rest)[1] == '#' && "[offline #G"[1] == 'o';
  }

  /** The same for group lines. */
  lemma GroupRoundTrip(m: GroupMessage)
    requires m.id < UINT64_LIMIT && ValidGroupName(m.group) && ValidUsername(m.sender) && IsBytes(m.content)
    ensures ParseGroup(GroupLine(m)) == Some(m.(content := if m.content == "-" then "" else m.content))
    ensures ParseGroup(GroupLine(m)) == Some(m) <==> m.content != "-"
  {
    NoBracket(m.group);
    SenderRead(m.id, m.group, m.sender, m.offline, m.content);
    var who := m.sender + "] " + Encode(m.content);
    GroupTail(m.id, m.group, who, m.offline);
    hide ToDecimal, Encode, ParseGroup, ParseGroupTail, ParseSender;
    GroupTags(ToDecimal(m.id) + "]" + (IN_GROUP + (m.group + "] [" + who)));
  }

  // ---- the three kinds are never confused ---------------------------------------------------

  lemma PrivateIsNoGroup(m: PrivateMessage)
    requires IsBytes(m.content)
    ensures ParseGroup(PrivateLine(m)).None?
  {
    DigitFirst(m.id);
    hide ToDecimal, Encode, ParseGroupTail;
    var line := PrivateLine(m);
    if m.offline {
      assert line[10] == ToDecimal(m.id)[0] && "[offline #G"[10] == 'G';
      assert line[1] == 'o' && "[#G"[1] == '#';
    } else {
      assert line[2] == ToDecimal(m.id)[0] && "[#G"[2] == 'G';
      assert line[1] == '#' && "[offline #G"[1] == 'o';
    }
  }

  lemma GroupIsNoPrivate(m: GroupMessage)
    requires IsBytes(m.content)
    ensures ParsePrivate(GroupLine(m)).None?
  {
    var rest := ToDecimal(m.id) + "]" + (IN_GROUP + (m.group + "] [" + (m.sender + "] " + Encode(m.content))));
    hide ToDecimal, Encode;
    var line := GroupLine(m);
    if m.offline {
      assert line[10..] == "G" + rest;
      NotANumber(rest);
    } else {
      assert line[1] == '#' && "[offline #"[1] == 'o';
      assert "[#G" <= line;
    }
  }

  lemma NotANumber(rest: Bytes)
    ensures ParseId("G" + rest).None?
  {
    var s := "G" + rest;
    var end := IndexOf(s, ']');
    if end < |s| {
      assert s[..end][0] == 'G';
      assert !AllDigits(s[..end]);
    }
  }

  /** A public line is neither, whatever its sender's name and its text. */
  lemma PublicIsNeither(id: nat, sender: Bytes, content: Bytes)
    requires id < UINT64_LIMIT && ValidUsername(sender)
    ensures ParsePrivate(PublicLine(id, sender, content)).None?
    ensures ParseGroup(PublicLine(id, sender, content)).None?
  {
    var tail := " [" + (sender + "] " + content);
    var rest := ToDecimal(id) + "]" + tail;
    IdRead(id, tail);
    DigitFirst(id);
    PublicMarker(sender, content);
    hide ToDecimal, ParseId, ParsePrivate, ParsePeer;
    assert rest[0] == ToDecimal(id)[0];
    PrivateTags(rest);
    NoGroupTag(rest);
  }

  lemma NoGroupTag(rest: Bytes)
    requires rest != [] && rest[0] != 'G'
    ensures ParseGroup("[#" + rest).None?
  {
    var line := "[#" + rest;
    assert line[2] == rest[0] && "[#G"[2] == 'G';
    assert line[1] == '#' && "[offline #G"[1] == 'o';
  }

  lemma PublicMarker(sender: Bytes, content: Bytes)
    requires ValidUsername(sender)
    ensures var tail := " [" + (sender + "] " + content); !(FROM <= tail) && !(LEGACY_FROM <= tail) && !(TO <= tail)
  {
    var tail := " [" + (sender + "] " + content);
    NotMarker(sender, content, FROM);
    NotMarker(sender, content, LEGACY_FROM);
    NotMarker(sender, content, TO);
  }

  /** After "private" a marker goes on with a character no name can have, and no bracket. */
  lemma NotMarker(sender: Bytes, content: Bytes, marker: Bytes)
    requires ValidUsername(sender)
    requires |marker| > 9 && marker[..9] == " [private" && !IsNameChar(marker[9]) && marker[9] != ']'
    ensures !(marker <= " [" + (sender + "] " + content))
  {
    var tail := " [" + (sender + "] " + content);
    assert forall i :: 0 <= i < |sender| ==> tail[2 + i] == sender[i];
    assert tail[2 + |sender|] == ']';
    assert forall i :: 0 <= i < 9 ==> marker[i] == marker[..9][i];
    var k := if |sender| < 7 then 2 + |sender| else 9;
    assert |sender| < 7 ==> marker[k] == " [private"[k] != ']' && tail[k] == ']';
    assert |sender| == 7 ==> tail[k] == ']';
    assert |sender| > 7 ==> tail[k] == sender[7] && IsNameChar(sender[7]);
    assert marker[k] != tail[k];
  }
}
