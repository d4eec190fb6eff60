/** The canonical form of agent SSH keys: an ssh-ed25519 line as section 4 of RFC 8709 lays it out over the string
    encoding of section 5 of RFC 4251, in base64 (section 4 of RFC 4648); internal/authorizedkeys/authorizedkeys.go. */
module AuthorizedKeys {
  import opened Results
  import opened Text

  type Byte = x: int | 0 <= x < 256

  // ---- Base64 ----

  type Sextet = x: int | 0 <= x < 64

  /** The alphabet: capitals, small letters, digits, plus and slash. */
  function CharOf(v: Sextet): char {
    if v < 26 then ('A' as int + v) as char
    else if v < 52 then ('a' as int + v - 26) as char
    else if v < 62 then ('0' as int + v - 52) as char
    else if v == 62 then '+' else '/'
  }

  function ValueOf(c: char): (v: Option<Sextet>)
    ensures v.Some? ==> CharOf(v.value) == c
  {
    if 'A' <= c <= 'Z' then Some(c as int - 'A' as int)
    else if 'a' <= c <= 'z' then Some(c as int - 'a' as int + 26)
    else if '0' <= c <= '9' then Some(c as int - '0' as int + 52)
    else if c == '+' then Some(62)
    else if c == '/' then Some(63)
    else None
  }

  lemma ValueOfChar(v: Sextet)
    ensures ValueOf(CharOf(v)) == Some(v)
  {}

  function Quad(x: Byte, y: Byte, z: Byte): string {
    [CharOf(x / 4), CharOf(x % 4 * 16 + y / 16), CharOf(y % 16 * 4 + z / 64), CharOf(z % 64)]
  }

  /** Three bytes from four sextets. */
  function Triple(a: Sextet, b: Sextet, c: Sextet, d: Sextet): (Byte, Byte, Byte) {
    (a * 4 + b / 16, b % 16 * 16 + c / 4, c % 4 * 64 + d)
  }

  lemma TripleOfQuad(x: Byte, y: Byte, z: Byte)
    ensures Triple(x / 4, x % 4 * 16 + y / 16, y % 16 * 4 + z / 64, z % 64) == (x, y, z)
  {}

  lemma QuadOfTriple(a: Sextet, b: Sextet, c: Sextet, d: Sextet)
    ensures var (x, y, z) := Triple(a, b, c, d); Quad(x, y, z) == [CharOf(a), CharOf(b), CharOf(c), CharOf(d)]
  {
    var (x, y, z) := Triple(a, b, c, d);
    assert x / 4 == a && x % 4 == b / 16;
    assert y / 16 == b % 16 && y % 16 == c / 4;
    assert z / 64 == c % 4 && z % 64 == d;
  }

  function Encode(bytes: seq<Byte>): string
    requires |bytes| % 3 == 0
  {
    if bytes == [] then "" else Quad(bytes[0], bytes[1], bytes[2]) + Encode(bytes[3..])
  }

  /** The last of the test vectors in section 10 of RFC 4648, and one with the last two characters of the alphabet. */
  lemma KnownTexts()
    ensures Encode([102, 111, 111, 98, 97, 114]) == "Zm9vYmFy"
    ensures Encode([251, 239, 255]) == "++//"
  {
    assert [102, 111, 111, 98, 97, 114][3..] == [98, 97, 114] && [98, 97, 114][3..] == [];
    assert Encode([98, 97, 114]) == "YmFy";
    assert [251, 239, 255][3..] == [];
  }

  /** Decoding with padding, which may only end the last four characters; the bits it cuts off are not looked at. */
  function Decode(s: string): Option<seq<Byte>> {
    if s == "" then Some([])
    else if |s| < 4 then None
    else
      var a, b, c, d := ValueOf(s[0]), ValueOf(s[1]), ValueOf(s[2]), ValueOf(s[3]);
      if a.None? || b.None? then None
      else if c.None? then
        if s[2] == '=' && s[3] == '=' && |s| == 4 then Some([Triple(a.value, b.value, 0, 0).0]) else None
      else if d.None? then
        var (x, y, _) := Triple(a.value, b.value, c.value, 0);
        if s[3] == '=' && |s| == 4 then Some([x, y]) else None
      else
        var rest := Decode(s[4..]);
        if rest.None? then None
        else
          var (x, y, z) := Triple(a.value, b.value, c.value, d.value);
          Some([x, y, z] + rest.value)
  }

  lemma {:induction false} DecodeEncode(bytes: seq<Byte>)
    requires |bytes| % 3 == 0
    ensures Decode(Encode(bytes)) == Some(bytes)
  {
    hide CharOf, ValueOf, Triple;
    if bytes != [] {
      var x, y, z := bytes[0], bytes[1], bytes[2];
      DecodeEncode(bytes[3..]);
      ValueOfChar(x / 4);
      ValueOfChar(x % 4 * 16 + y / 16);
      ValueOfChar(y % 16 * 4 + z / 64);
      ValueOfChar(z % 64);
      TripleOfQuad(x, y, z);
      assert Encode(bytes)[4..] == Encode(bytes[3..]);
      assert bytes == [x, y, z] + bytes[3..];
    }
  }

  /** Only one text decodes to a whole number of triples: there is no padding whose bits could vary. */
  lemma {:induction false} EncodeDecode(s: string)
    requires Decode(s).Some? && |Decode(s).value| % 3 == 0
    ensures s == Encode(Decode(s).value)
  {
    hide CharOf, ValueOf, Triple, Quad;
    if s != "" {
      var a, b, c, d := ValueOf(s[0]).value, ValueOf(s[1]).value, ValueOf(s[2]).value, ValueOf(s[3]).value;
      var rest := Decode(s[4..]).value;
      var (x, y, z) := Triple(a, b, c, d);
      assert Decode(s).value == [x, y, z] + rest;
      assert Decode(s).value[3..] == rest;
      EncodeDecode(s[4..]);
      QuadOfTriple(a, b, c, d);
      assert s == [s[0], s[1], s[2], s[3]] + s[4..];
    }
  }

  // ---- The wire format ----

  const ALGORITHM := "ssh-ed25519"

  /** The algorithm's name in ASCII. */
  const ALGORITHM_BYTES: seq<Byte> := [115, 115, 104, 45, 101, 100, 50, 53, 53, 49, 57]

  function Size(value: seq<Byte>): (n: nat)
    requires |value| >= 4
  {
    var a: int, b: int, c: int, d: int := value[0], value[1], value[2], value[3];
    a * 0x1000000 + b * 0x10000 + c * 0x100 + d
  }

  /** A length-prefixed string and what follows it. */
  function ReadString(value: seq<Byte>): Option<(seq<Byte>, seq<Byte>)> {
    if |value| < 4 || Size(value) > |value| - 4 then None
    else Some((value[4..4 + Size(value)], value[4 + Size(value)..]))
  }

  type Key = k: seq<Byte> | |k| == 32 witness seq(32, _ => 0)

  /** The 51 bytes of a public key. */
  function Blob(key: Key): (b: seq<Byte>)
    ensures |b| == 51
  {
    [0, 0, 0, 11] + ALGORITHM_BYTES + [0, 0, 0, 32] + key
  }

  /** The key in a blob, if it is one. */
  function KeyOf(blob: seq<Byte>): Option<Key> {
    match ReadString(blob)
    case None => None
    case Some((algorithm, rest)) =>
      if algorithm != ALGORITHM_BYTES then None
      else
        match ReadString(rest)
        case None => None
        case Some((key, tail)) => if |key| == 32 && tail == [] then Some(key) else None
  }

  lemma KeyOfBlob(key: Key)
    ensures KeyOf(Blob(key)) == Some(key)
  {
    var blob := Blob(key);
    assert Size(blob) == 11 && blob[4..15] == ALGORITHM_BYTES;
    var rest := blob[15..];
    assert rest == [0, 0, 0, 32] + key;
    assert Size(rest) == 32 && rest[4..36] == key && rest[36..] == [];
  }

  lemma BlobOfKey(blob: seq<Byte>)
    requires KeyOf(blob).Some?
    ensures blob == Blob(KeyOf(blob).value)
  {
    var (algorithm, rest) := ReadString(blob).value;
    SizeBytes(blob, 11);
    SizeBytes(rest, 32);
    assert blob == blob[..4] + algorithm + rest;
    assert rest == rest[..4] + KeyOf(blob).value;
  }

  lemma SizeBytes(value: seq<Byte>, n: Byte)
    requires |value| >= 4 && Size(value) == n
    ensures value[..4] == [0, 0, 0, n]
  {}

  // ---- Lines ----

  /** strings.Fields. */
  function Fields(s: string): seq<string>
    decreases |s|
  {
    var t := TrimLeft(s);
    if t == "" then []
    else
      var n := WordLength(t);
      [t[..n]] + Fields(t[n..])
  }

  function WordLength(s: string): (n: nat)
    ensures n <= |s| && forall i :: 0 <= i < n ==> !IsSpace(s[i])
    ensures n < |s| ==> IsSpace(s[n])
    ensures s != "" && !IsSpace(s[0]) ==> n > 0
  {
    if s == "" || IsSpace(s[0]) then 0 else 1 + WordLength(s[1..])
  }

  predicate OneLine(s: string) { '\r' !in s && '\n' !in s }

  function Line(key: Key): string { ALGORITHM + " " + Encode(Blob(key)) }

  /** The key in a line, if the line is accepted. */
  function KeyIn(raw: string): Option<Key> {
    var fields := Fields(raw);
    if !OneLine(raw) || |fields| < 2 || fields[0] != ALGORITHM then None
    else
      match Decode(fields[1])
      case None => None
      case Some(blob) => KeyOf(blob)
  }

  function Normalize(raw: string): Option<string> {
    if KeyIn(raw).None? then None else Some(ALGORITHM + " " + Fields(raw)[1])
  }

  /** The accepted lines are exactly those whose second field is the one encoding of a key, and the result is that
      key's line. */
  lemma AcceptsExactly(raw: string, key: Key)
    ensures KeyIn(raw) == Some(key) <==>
      OneLine(raw) && |Fields(raw)| >= 2 && Fields(raw)[0] == ALGORITHM && Fields(raw)[1] == Encode(Blob(key))
    ensures KeyIn(raw) == Some(key) ==> Normalize(raw) == Some(Line(key))
  {
    hide Fields, Decode, Encode, KeyOf, Blob;
    DecodeEncode(Blob(key));
    KeyOfBlob(key);
    if KeyIn(raw) == Some(key) {
      BlobOfKey(Decode(Fields(raw)[1]).value);
      EncodeDecode(Fields(raw)[1]);
    }
  }

  lemma {:induction false} EncodedChars(bytes: seq<Byte>)
    requires |bytes| % 3 == 0
    ensures forall c :: c in Encode(bytes) ==> ValueOf(c).Some?
    ensures bytes != [] ==> Encode(bytes) != ""
  {
    hide CharOf, ValueOf;
    if bytes != [] {
      EncodedChars(bytes[3..]);
      var x, y, z := bytes[0], bytes[1], bytes[2];
      ValueOfChar(x / 4);
      ValueOfChar(x % 4 * 16 + y / 16);
      ValueOfChar(y % 16 * 4 + z / 64);
      ValueOfChar(z % 64);
    }
  }

  predicate IsWord(w: string) { w != "" && forall i :: 0 <= i < |w| ==> !IsSpace(w[i]) }

  lemma NothingTrimmed(s: string)
    requires s != "" && !IsSpace(s[0])
    ensures TrimLeft(s) == s
  {
    hide IsSpace;
  }

  lemma WordEnds(w: string, rest: string)
    requires IsWord(w) && (rest != "" ==> IsSpace(rest[0]))
    ensures WordLength(w + rest) == |w|
  {
    hide IsSpace, WordLength;
    var s, n := w + rest, WordLength(w + rest);
    assert forall i :: 0 <= i < |w| ==> s[i] == w[i];
    assert forall i :: 0 <= i < |rest| ==> s[|w| + i] == rest[i];
  }

  lemma WordField(w: string, rest: string)
    requires IsWord(w) && (rest != "" ==> IsSpace(rest[0]))
    ensures Fields(w + rest) == [w] + Fields(rest)
  {
    hide IsSpace, TrimLeft, WordLength;
    var s := w + rest;
    assert s[0] == w[0];
    NothingTrimmed(s);
    WordEnds(w, rest);
    assert s[..|w|] == w && s[|w|..] == rest;
  }

  lemma SpacesSkipped(s: string)
    ensures Fields(" " + s) == Fields(s)
  {
    hide IsSpace, TrimLeft, WordLength;
    SpaceTrimmed(s);
  }

  lemma SpaceTrimmed(s: string)
    ensures TrimLeft(" " + s) == TrimLeft(s)
  {
    SpaceIsSpace();
    hide IsSpace;
    assert (" " + s)[1..] == s;
  }

  lemma TwoFields(a: string, b: string)
    requires IsWord(a) && IsWord(b)
    ensures Fields(a + " " + b) == [a, b]
  {
    SpaceIsSpace();
    hide IsSpace, Fields, IsWord;
    assert a + " " + b == a + (" " + b);
    WordField(a, " " + b);
    SpacesSkipped(b);
    assert b + "" == b;
    WordField(b, "");
    assert Fields("") == [] by { NoFields(); }
  }

  lemma NoFields()
    ensures Fields("") == []
  {}

  lemma SpaceIsSpace()
    ensures IsSpace(' ')
  {}

  lemma LineFields(key: Key)
    ensures Fields(Line(key)) == [ALGORITHM, Encode(Blob(key))] && OneLine(Line(key))
  {
    hide Fields, Encode;
    EncodedChars(Blob(key));
    var text := Encode(Blob(key));
    assert IsWord(text) by {
      forall i | 0 <= i < |text| ensures !IsSpace(text[i]) { assert text[i] in text; }
    }
    TwoFields(ALGORITHM, text);
  }

  /** A normalized line is left alone. */
  lemma NormalizeFixed(raw: string)
    requires Normalize(raw).Some?
    ensures Normalize(Normalize(raw).value) == Normalize(raw)
  {
    hide Normalize, KeyIn, Line, Fields, Encode;
    var key := KeyIn(raw).value by { Accepted(raw); }
    AcceptsExactly(raw, key);
    LineFields(key);
    AcceptsExactly(Line(key), key);
  }

  lemma Accepted(raw: string)
    ensures Normalize(raw).Some? <==> KeyIn(raw).Some?
  {}

  /** Two lines have the same normal form exactly when they carry the same key. */
  lemma SameFormIffSameKey(a: string, b: string)
    requires Normalize(a).Some? && Normalize(b).Some?
    ensures Normalize(a) == Normalize(b) <==> KeyIn(a) == KeyIn(b)
  {
    hide Normalize, KeyIn, Line, Fields, Encode;
    Accepted(a);
    Accepted(b);
    AcceptsExactly(a, KeyIn(a).value);
    AcceptsExactly(b, KeyIn(b).value);
    if Normalize(a) == Normalize(b) {
      LineFields(KeyIn(a).value);
      LineFields(KeyIn(b).value);
      DecodeEncode(Blob(KeyIn(a).value));
      DecodeEncode(Blob(KeyIn(b).value));
      KeyOfBlob(KeyIn(a).value);
      KeyOfBlob(KeyIn(b).value);
    }
  }

  // ---- The file ----

  datatype Entry = Entry(agentId: string, publicKey: string)

  predicate SafeId(id: string) {
    && 1 <= |id| <= 64
    && forall c :: c in id ==> 'A' <= c <= 'Z' || 'a' <= c <= 'z' || '0' <= c <= '9' || c == '_' || c == '-'
  }

  const LEGACY_ADDRESS := "127.0.0.1"
  const RESTRICTIONS := "no-agent-forwarding,no-X11-forwarding,no-pty,no-user-rc"

  /** The address an agent may listen on. */
  function AddressOf(id: string, isolated: bool, address: string -> string): string {
    if isolated then address(id) else LEGACY_ADDRESS
  }

  function Options(id: string, isolated: bool, bind: string): string {
    "command=\""
    + (if isolated then "/usr/local/bin/portloom-ssh-session " + id + " " + bind else "/usr/sbin/nologin")
    + "\"," + RESTRICTIONS + ",permitlisten=\"" + bind + ":*\""
  }

  function EntryLine(e: Entry, isolated: bool, address: string -> string): string
    requires Normalize(e.publicKey).Some?
  {
    Options(e.agentId, isolated, AddressOf(e.agentId, isolated, address))
    + " " + Normalize(e.publicKey).value + " portloom-agent:" + e.agentId
  }

  predicate EntryOk(e: Entry) { SafeId(e.agentId) && Normalize(e.publicKey).Some? }

  /** Every entry is sound, and with isolation no two agents share an address. */
  predicate Renderable(entries: seq<Entry>, isolated: bool, address: string -> string) {
    && (forall e :: e in entries ==> EntryOk(e))
    && (isolated ==> forall i, j :: 0 <= i < j < |entries| ==> address(entries[i].agentId) != address(entries[j].agentId))
  }

  /** The loop over the sorted entries; `address` gives each agent its hashed address. */
  method Render(entries: seq<Entry>, isolated: bool, address: string -> string) returns (lines: Option<seq<string>>)
    ensures lines.Some? <==> Renderable(entries, isolated, address)
    ensures lines.Some? ==>
      && |lines.value| == |entries|
      && forall i :: 0 <= i < |entries| ==>
           EntryOk(entries[i]) && lines.value[i] == EntryLine(entries[i], isolated, address)
  {
    hide EntryLine, SafeId, Normalize;
    var written: seq<string> := [];
    var owners: map<string, string> := map[];
    for i := 0 to |entries|
      invariant |written| == i
      invariant forall j :: 0 <= j < i ==> EntryOk(entries[j]) && written[j] == EntryLine(entries[j], isolated, address)
      invariant isolated ==> forall a :: a in owners <==> exists j :: 0 <= j < i && address(entries[j].agentId) == a
      invariant isolated ==> forall j, k :: 0 <= j < k < i ==> address(entries[j].agentId) != address(entries[k].agentId)
    {
      var entry := entries[i];
      assert entry in entries;
      if !SafeId(entry.agentId) || Normalize(entry.publicKey).None? { return None; }
      if isolated {
        var bind := address(entry.agentId);
        if bind in owners { return None; }
        owners := owners[bind := entry.agentId];
      }
      written := written + [EntryLine(entry, isolated, address)];
    }
    return Some(written);
  }
}
