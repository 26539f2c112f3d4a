/** The agent keyring: parsing "agent-id:key,agent-id:key" and resolving a presented key.

    Here a character is a code point; key lengths are counted in UTF-8 bytes. */
module AgentKeys {
  import opened Contracts
  import opened PolicySchema

  const MIN_KEY_LENGTH := 16
  const MAX_KEY_LENGTH := 256

  datatype Entry = Entry(agentId: string, key: string)

  /** A keyring holds digests only. */
  datatype KeyEntry = KeyEntry(agentId: string, digest: HashText)

  function Digest(key: string): HashText {
    Sha256Hex(key)
  }

  /** Unicode white space. */
  predicate Space(c: char) {
    || '\t' <= c <= '\r' || c == ' ' || c == '\U{85}' || c == '\U{A0}' || c == '\U{1680}'
    || '\U{2000}' <= c <= '\U{200A}' || c == '\U{2028}' || c == '\U{2029}' || c == '\U{202F}'
    || c == '\U{205F}' || c == '\U{3000}'
  }

  function ByteLength(s: string): nat {
    if s == "" then 0
    else (if s[0] < '\U{80}' then 1 else if s[0] < '\U{800}' then 2 else if s[0] < '\U{10000}' then 3 else 4)
         + ByteLength(s[1..])
  }

  // ---- White space and lengths, independently ---------------------------------------

  /** The code points of white space. */
  const SPACES: seq<int> :=
    [9, 10, 11, 12, 13, 32, 133, 160, 5760, 8192, 8193, 8194, 8195, 8196, 8197, 8198, 8199, 8200, 8201, 8202,
     8232, 8233, 8239, 8287, 12288]

  lemma SpaceIsListed(c: char)
    ensures Space(c) <==> c as int in SPACES
  {
    var n := c as int;
    if 9 <= n <= 13 {
      assert SPACES[n - 9] == n;
    } else if 8192 <= n <= 8202 {
      assert SPACES[n - 8183] == n;
    } else {
      assert SPACES[5] == 32 && SPACES[6] == 133 && SPACES[7] == 160 && SPACES[8] == 5760 && SPACES[20] == 8232;
      assert SPACES[21] == 8233 && SPACES[22] == 8239 && SPACES[23] == 8287 && SPACES[24] == 12288;
    }
  }

  /** The UTF-8 form of a code point. */
  function Utf8(c: char): seq<int> {
    var n := c as int;
    if n < 0x80 then [n]
    else if n < 0x800 then [0xC0 + n / 0x40, 0x80 + n % 0x40]
    else if n < 0x1_0000 then [0xE0 + n / 0x1000, 0x80 + n / 0x40 % 0x40, 0x80 + n % 0x40]
    else [0xF0 + n / 0x4_0000, 0x80 + n / 0x1000 % 0x40, 0x80 + n / 0x40 % 0x40, 0x80 + n % 0x40]
  }

  function Utf8Text(s: string): seq<int> {
    if s == "" then [] else Utf8(s[0]) + Utf8Text(s[1..])
  }

  /** The length that is checked is the length in UTF-8 bytes. */
  lemma {:induction false} ByteLengthIsUtf8(s: string)
    ensures ByteLength(s) == |Utf8Text(s)|
  {
    if s != "" {
      ByteLengthIsUtf8(s[1..]);
    }
  }

  /** A key is accepted exactly if it has 16 to 256 bytes, and no white space and no comma. */
  lemma KeyRule(key: string)
    ensures ValidKey(key) <==>
              16 <= |Utf8Text(key)| <= 256 && forall i :: 0 <= i < |key| ==> key[i] as int !in SPACES && key[i] != ','
  {
    ByteLengthIsUtf8(key);
    forall i | 0 <= i < |key| ensures Space(key[i]) <==> key[i] as int in SPACES {
      SpaceIsListed(key[i]);
    }
  }

  // ---- The format -------------------------------------------------------------------

  predicate ValidKey(key: string) {
    && MIN_KEY_LENGTH <= ByteLength(key) <= MAX_KEY_LENGTH
    && (forall i :: 0 <= i < |key| ==> !Space(key[i]) && key[i] != ',')
  }

  predicate ValidEntry(e: Entry) {
    AgentName(e.agentId) && ValidKey(e.key)
  }

  predicate ValidEntries(entries: seq<Entry>) {
    && (forall i :: 0 <= i < |entries| ==> ValidEntry(entries[i]))
    && (forall i, j :: 0 <= i < j < |entries| ==>
          entries[i].agentId != entries[j].agentId && entries[i].key != entries[j].key)
  }

  function PrintEntry(e: Entry): string {
    e.agentId + ":" + e.key
  }

  function PrintParts(entries: seq<Entry>): seq<string> {
    seq(|entries|, i requires 0 <= i < |entries| => PrintEntry(entries[i]))
  }

  function Join(parts: seq<string>): string
    requires parts != []
  {
    if |parts| == 1 then parts[0] else parts[0] + "," + Join(parts[1..])
  }

  function Print(entries: seq<Entry>): string
    requires entries != []
  {
    Join(PrintParts(entries))
  }

  // ---- Splitting --------------------------------------------------------------------

  /** The position of the first `c`, or the length. */
  function Find(s: string, c: char): (n: nat)
    ensures n <= |s| && (n < |s| ==> s[n] == c) && forall i :: 0 <= i < n ==> s[i] != c
  {
    if s == "" || s[0] == c then 0 else 1 + Find(s[1..], c)
  }

  function Split(s: string): (parts: seq<string>)
    ensures parts != []
    decreases |s|
  {
    var n := Find(s, ',');
    if n == |s| then [s] else [s[..n]] + Split(s[n + 1..])
  }

  function TrimLeft(s: string): string {
    if s != "" && Space(s[0]) then TrimLeft(s[1..]) else s
  }

  function TrimRight(s: string): string {
    if s != "" && Space(s[|s| - 1]) then TrimRight(s[..|s| - 1]) else s
  }

  function Trim(s: string): string {
    TrimRight(TrimLeft(s))
  }

  predicate NoComma(s: string) {
    forall i :: 0 <= i < |s| ==> s[i] != ','
  }

  lemma FindFirst(s: string, c: char, n: nat)
    requires n <= |s| && (n < |s| ==> s[n] == c) && forall i :: 0 <= i < n ==> s[i] != c
    ensures Find(s, c) == n
  {
  }

  lemma {:induction false} SplitJoin(parts: seq<string>)
    requires parts != [] && forall i :: 0 <= i < |parts| ==> NoComma(parts[i])
    ensures Split(Join(parts)) == parts
  {
    var s := Join(parts);
    if |parts| == 1 {
      FindFirst(s, ',', |s|);
      assert parts == [parts[0]];
    } else {
      FindFirst(s, ',', |parts[0]|);
      assert s[..|parts[0]|] == parts[0] && s[|parts[0]| + 1..] == Join(parts[1..]);
      SplitJoin(parts[1..]);
    }
  }

  lemma {:induction false} JoinSplit(s: string)
    ensures Join(Split(s)) == s
    ensures forall i :: 0 <= i < |Split(s)| ==> NoComma(Split(s)[i])
    decreases |s|
  {
    var n := Find(s, ',');
    if n < |s| {
      JoinSplit(s[n + 1..]);
      var parts := Split(s);
      assert parts[1..] == Split(s[n + 1..]);
      assert s == s[..n] + "," + s[n + 1..];
    }
  }

  // ---- One entry --------------------------------------------------------------------

  /** What one part of the list says, if it is well formed. */
  function ReadEntry(part: string): Option<Entry> {
    var n := Find(part, ':');
    if n == |part| then None
    else
      var e := Entry(part[..n], part[n + 1..]);
      if ValidEntry(e) then Some(e) else None
  }

  /** Printing and reading one entry undo each other. */
  lemma ReadEntryIsExact(part: string, e: Entry)
    requires NoComma(part)
    ensures ReadEntry(part) == Some(e) <==> ValidEntry(e) && part == PrintEntry(e)
  {
    if ValidEntry(e) && part == PrintEntry(e) {
      assert forall i :: 0 <= i < |e.agentId| ==> IdChar(part[i]);
      FindFirst(part, ':', |e.agentId|);
      assert part[..|e.agentId|] == e.agentId && part[|e.agentId| + 1..] == e.key;
    }
    if ReadEntry(part) == Some(e) {
      var n := Find(part, ':');
      assert part == part[..n] + ":" + part[n + 1..];
    }
  }

  // ---- The whole list ---------------------------------------------------------------

  /** The entries are what the first `n` parts say. */
  ghost predicate ReadTo(parts: seq<string>, n: nat, entries: seq<Entry>)
    requires n <= |parts|
  {
    && |entries| == n && ValidEntries(entries)
    && forall i :: 0 <= i < n ==> parts[i] == PrintEntry(entries[i])
  }

  /** The printed list has no white space at its ends, so trimming keeps it. */
  lemma PrintedIsTrimmed(entries: seq<Entry>)
    requires entries != [] && ValidEntries(entries)
    ensures Trim(Print(entries)) == Print(entries)
  {
    var s, parts := Print(entries), PrintParts(entries);
    JoinEnds(parts);
    assert s[0] == entries[0].agentId[0];
    var last := entries[|entries| - 1];
    assert last.key != "";
    assert PrintEntry(last)[|PrintEntry(last)| - 1] == last.key[|last.key| - 1];
  }

  lemma {:induction false} JoinEnds(parts: seq<string>)
    requires parts != [] && forall i :: 0 <= i < |parts| ==> parts[i] != ""
    ensures Join(parts) != ""
    ensures Join(parts)[0] == parts[0][0]
    ensures var last := parts[|parts| - 1]; Join(parts)[|Join(parts)| - 1] == last[|last| - 1]
  {
    if |parts| > 1 {
      JoinEnds(parts[1..]);
    }
  }

  /** A text means a list exactly when it prints it, up to surrounding white space. */
  ghost predicate Means(spec: string, entries: seq<Entry>) {
    entries != [] && ValidEntries(entries) && Trim(spec) == Print(entries)
  }

  predicate AllSpace(s: string) {
    forall i :: 0 <= i < |s| ==> Space(s[i])
  }

  lemma {:induction false} TrimLeftIsExact(s: string)
    ensures var t := TrimLeft(s);
            |t| <= |s| && s[|s| - |t|..] == t && AllSpace(s[..|s| - |t|]) && (t != "" ==> !Space(t[0]))
  {
    if s != "" && Space(s[0]) {
      TrimLeftIsExact(s[1..]);
      var t := TrimLeft(s);
      assert s[1..][..|s| - 1 - |t|] == s[1..|s| - |t|];
      forall i | 0 <= i < |s| - |t| ensures Space(s[i]) {
        if i > 0 {
          assert s[1..|s| - |t|][i - 1] == s[i];
        }
      }
    }
  }

  lemma {:induction false} TrimRightIsExact(s: string)
    ensures var t := TrimRight(s);
            |t| <= |s| && s[..|t|] == t && AllSpace(s[|t|..]) && (t != "" ==> !Space(t[|t| - 1]))
    decreases |s|
  {
    if s != "" && Space(s[|s| - 1]) {
      var shorter := s[..|s| - 1];
      TrimRightIsExact(shorter);
      var t := TrimRight(s);
      forall i | |t| <= i < |s| ensures Space(s[i]) {
        if i < |s| - 1 {
          assert shorter[|t|..][i - |t|] == s[i];
        }
      }
    }
  }

  /** A text is a printed list between white space exactly when trimming it gives the printed list. */
  lemma TrimmedIsSurrounded(spec: string, text: string)
    requires text != "" && !Space(text[0]) && !Space(text[|text| - 1])
    ensures Trim(spec) == text <==>
              exists n: nat :: n + |text| <= |spec| && spec[n..n + |text|] == text && AllSpace(spec[..n]) && AllSpace(spec[n + |text|..])
  {
    var left := TrimLeft(spec);
    TrimLeftIsExact(spec);
    TrimRightIsExact(left);
    var n := |spec| - |left|;
    if Trim(spec) == text {
      assert spec[n..n + |text|] == left[..|text|];
      assert spec[n + |text|..] == left[|text|..];
    }
    forall k: nat | k + |text| <= |spec| && spec[k..k + |text|] == text && AllSpace(spec[..k]) && AllSpace(spec[k + |text|..])
      ensures Trim(spec) == text
    {
      SurroundedIsTrimmed(spec, text, k);
    }
  }

  lemma {:induction false} TrimLeftDrops(s: string, k: nat)
    requires k < |s| && AllSpace(s[..k]) && !Space(s[k])
    ensures TrimLeft(s) == s[k..]
    decreases k
  {
    if k > 0 {
      assert s[..k][0] == s[0];
      var spaces := s[1..][..k - 1];
      forall i | 0 <= i < |spaces| ensures Space(spaces[i]) {
        assert spaces[i] == s[..k][i + 1];
      }
      TrimLeftDrops(s[1..], k - 1);
    }
  }

  lemma {:induction false} TrimRightDrops(s: string, k: nat)
    requires 0 < k <= |s| && AllSpace(s[k..]) && !Space(s[k - 1])
    ensures TrimRight(s) == s[..k]
    decreases |s|
  {
    if k < |s| {
      var shorter := s[..|s| - 1];
      assert s[k..][|s| - 1 - k] == s[|s| - 1];
      assert forall i :: 0 <= i < |shorter| - k ==> shorter[k..][i] == s[k..][i];
      TrimRightDrops(shorter, k);
      assert shorter[..k] == s[..k];
    } else {
      assert s[..k] == s;
    }
  }

  lemma SurroundedIsTrimmed(spec: string, text: string, k: nat)
    requires text != "" && !Space(text[0]) && !Space(text[|text| - 1])
    requires k + |text| <= |spec| && spec[k..k + |text|] == text && AllSpace(spec[..k]) && AllSpace(spec[k + |text|..])
    ensures Trim(spec) == text
  {
    assert spec[k] == text[0];
    TrimLeftDrops(spec, k);
    var left := spec[k..];
    assert left[..|text|] == text && left[|text|..] == spec[k + |text|..];
    assert left[|text| - 1] == text[|text| - 1];
    TrimRightDrops(left, |text|);
  }

  /** A text means a list exactly when it is that list, printed, between white space. */
  lemma MeansIsExact(spec: string, entries: seq<Entry>)
    ensures Means(spec, entries) <==>
              && entries != [] && ValidEntries(entries)
              && exists n: nat :: n + |Print(entries)| <= |spec| && spec[n..n + |Print(entries)|] == Print(entries)
                                  && AllSpace(spec[..n]) && AllSpace(spec[n + |Print(entries)|..])
  {
    if entries != [] && ValidEntries(entries) {
      PrintedEnds(entries);
      TrimmedIsSurrounded(spec, Print(entries));
    }
  }

  lemma PrintedEnds(entries: seq<Entry>)
    requires entries != [] && ValidEntries(entries)
    ensures var s := Print(entries); s != "" && !Space(s[0]) && !Space(s[|s| - 1])
  {
    var s, parts := Print(entries), PrintParts(entries);
    JoinEnds(parts);
    assert s[0] == entries[0].agentId[0];
    var last := entries[|entries| - 1];
    assert last.key != "";
    assert PrintEntry(last)[|PrintEntry(last)| - 1] == last.key[|last.key| - 1];
  }

  lemma ReadAllIsExact(spec: string, entries: seq<Entry>)
    requires entries != []
    ensures ReadTo(Split(Trim(spec)), |Split(Trim(spec))|, entries) <==> Means(spec, entries)
  {
    var parts := Split(Trim(spec));
    JoinSplit(Trim(spec));
    if ReadTo(parts, |parts|, entries) {
      assert parts == PrintParts(entries);
    }
    if Means(spec, entries) {
      forall i | 0 <= i < |entries| ensures NoComma(PrintParts(entries)[i]) {
        assert ValidEntry(entries[i]);
      }
      SplitJoin(PrintParts(entries));
    }
  }

  lemma ReadIsUnique(parts: seq<string>, a: seq<Entry>, b: seq<Entry>)
    requires forall i :: 0 <= i < |parts| ==> NoComma(parts[i])
    requires ReadTo(parts, |parts|, a) && ReadTo(parts, |parts|, b)
    ensures a == b
  {
    forall i | 0 <= i < |parts| ensures a[i] == b[i] {
      ReadEntryIsExact(parts[i], a[i]);
      ReadEntryIsExact(parts[i], b[i]);
    }
  }

  function Keyring(entries: seq<Entry>): seq<KeyEntry> {
    seq(|entries|, i requires 0 <= i < |entries| => KeyEntry(entries[i].agentId, Digest(entries[i].key)))
  }

  /** Reading a prefix that fails rules out every list. */
  lemma StuckMeansNothing(spec: string, n: nat, entries: seq<Entry>)
    requires n < |Split(Trim(spec))| && ReadTo(Split(Trim(spec)), n, entries)
    requires var next := ReadEntry(Split(Trim(spec))[n]);
             next.None? || (exists i :: 0 <= i < n && (entries[i].agentId == next.value.agentId || entries[i].key == next.value.key))
    ensures forall all :: !Means(spec, all)
  {
    var parts := Split(Trim(spec));
    JoinSplit(Trim(spec));
    forall all ensures !Means(spec, all) {
      if Means(spec, all) {
        ReadAllIsExact(spec, all);
        ReadEntryIsExact(parts[n], all[n]);
        forall i | 0 <= i < n ensures all[i] == entries[i] {
          ReadEntryIsExact(parts[i], all[i]);
          ReadEntryIsExact(parts[i], entries[i]);
        }
        assert false;
      }
    }
  }

  /** Accepts exactly the texts that print a non-empty list of valid entries with distinct IDs
      and distinct keys, and returns the keyring of that list. */
  method ParseAgentKeys(spec: string) returns (ring: Option<seq<KeyEntry>>)
    ensures ring.Some? <==> exists entries :: Means(spec, entries)
    ensures forall entries :: Means(spec, entries) ==> ring == Some(Keyring(entries))
  {
    var text := Trim(spec);
    if text == "" {
      forall entries ensures !Means(spec, entries) {
        if Means(spec, entries) {
          NonemptyPrint(entries);
          assert false;
        }
      }
      return None;
    }
    var parts := Split(text);
    JoinSplit(text);
    var built: seq<KeyEntry> := [];
    var seenIds: set<string> := {};
    var seenKeys: set<HashText> := {};
    ghost var entries: seq<Entry> := [];
    var i := 0;
    while i < |parts|
      invariant 0 <= i <= |parts|
      invariant ReadTo(parts, i, entries)
      invariant built == Keyring(entries) && Seen(entries, seenIds, seenKeys)
    {
      var e := CutEntry(parts[i]);
      if e.None? || e.value.agentId in seenIds || Digest(e.value.key) in seenKeys {
        StuckMeansNothing(spec, i, entries);
        return None;
      }
      NextEntry(parts, i, entries, e.value, seenIds, seenKeys);
      seenIds := seenIds + {e.value.agentId};
      seenKeys := seenKeys + {Digest(e.value.key)};
      built := built + [KeyEntry(e.value.agentId, Digest(e.value.key))];
      entries := entries + [e.value];
      i := i + 1;
    }
    ReadAllIsExact(spec, entries);
    forall all | Means(spec, all) ensures all == entries {
      ReadAllIsExact(spec, all);
      ReadIsUnique(parts, all, entries);
    }
    ring := Some(built);
  }

  /** Cuts one part at its first colon and checks both halves. */
  method CutEntry(part: string) returns (e: Option<Entry>)
    requires NoComma(part)
    ensures e == ReadEntry(part)
    ensures e.Some? ==> ValidEntry(e.value) && part == PrintEntry(e.value)
  {
    var n := Find(part, ':');
    if n == |part| {
      return None;
    }
    var id, key := part[..n], part[n + 1..];
    assert forall j :: 0 <= j < |key| ==> key[j] == part[n + 1 + j];
    if !AgentName(id) {
      return None;
    }
    if ByteLength(key) < MIN_KEY_LENGTH || ByteLength(key) > MAX_KEY_LENGTH {
      return None;
    }
    if exists j :: 0 <= j < |key| && Space(key[j]) {
      return None;
    }
    ReadEntryIsExact(part, Entry(id, key));
    e := Some(Entry(id, key));
  }

  /** The two sets hold the IDs and the key digests read so far. */
  ghost predicate Seen(entries: seq<Entry>, ids: set<string>, digests: set<HashText>) {
    && (forall id :: id in ids <==> exists j :: 0 <= j < |entries| && entries[j].agentId == id)
    && (forall d :: d in digests <==> exists j :: 0 <= j < |entries| && Digest(entries[j].key) == d)
  }

  lemma NonemptyPrint(entries: seq<Entry>)
    requires entries != []
    ensures Print(entries) != ""
  {
    JoinEnds(PrintParts(entries));
  }

  lemma NextEntry(parts: seq<string>, n: nat, entries: seq<Entry>, e: Entry, ids: set<string>, digests: set<HashText>)
    requires n < |parts| && ReadTo(parts, n, entries) && ValidEntry(e) && parts[n] == PrintEntry(e)
    requires Seen(entries, ids, digests) && e.agentId !in ids && Digest(e.key) !in digests
    ensures ReadTo(parts, n + 1, entries + [e])
    ensures Keyring(entries + [e]) == Keyring(entries) + [KeyEntry(e.agentId, Digest(e.key))]
    ensures Seen(entries + [e], ids + {e.agentId}, digests + {Digest(e.key)})
  {
    var more := entries + [e];
    assert forall i :: 0 <= i < n ==> more[i] == entries[i];
    forall i | 0 <= i < n ensures entries[i].agentId != e.agentId && entries[i].key != e.key {
      assert entries[i].agentId in ids && Digest(entries[i].key) in digests;
    }
    forall id ensures id in ids + {e.agentId} <==> exists j :: 0 <= j < |more| && more[j].agentId == id {
      if id == e.agentId { assert more[n].agentId == id; }
      if id in ids { var j :| 0 <= j < n && entries[j].agentId == id; assert more[j].agentId == id; }
    }
    forall d ensures d in digests + {Digest(e.key)} <==> exists j :: 0 <= j < |more| && Digest(more[j].key) == d {
      if d == Digest(e.key) { assert Digest(more[n].key) == d; }
      if d in digests { var j :| 0 <= j < n && Digest(entries[j].key) == d; assert Digest(more[j].key) == d; }
    }
  }

  /** Printing a valid list and parsing the text gives the list back. */
  lemma PrintedMeansItself(entries: seq<Entry>)
    requires entries != [] && ValidEntries(entries)
    ensures Means(Print(entries), entries)
  {
    PrintedIsTrimmed(entries);
  }

  /** The agent whose key is presented, if any. */
  ghost predicate Resolves(entries: seq<Entry>, presented: string, id: string) {
    exists i :: 0 <= i < |entries| && entries[i].key == presented && entries[i].agentId == id
  }

  /** Compares every entry and never exits early; a configured key finds its own agent and any
      other text finds none. */
  method Resolve(ring: seq<KeyEntry>, presented: string, ghost entries: seq<Entry>) returns (id: Option<string>)
    requires ValidEntries(entries) && ring == Keyring(entries)
    ensures forall a :: id == Some(a) <==> Resolves(entries, presented, a)
    ensures id.None? <==> forall i :: 0 <= i < |entries| ==> entries[i].key != presented
  {
    var digest := Digest(presented);
    var match', found := -1, 0;
    var i := 0;
    while i < |ring|
      invariant 0 <= i <= |ring|
      invariant found == 0 || found == 1
      invariant found == 1 ==> 0 <= match' < i && entries[match'].key == presented
      invariant found == 0 ==> forall j :: 0 <= j < i ==> entries[j].key != presented
    {
      var eq := if digest == ring[i].digest then 1 else 0;
      match' := if eq == 1 then i else match';
      found := if found == 1 || eq == 1 then 1 else 0;
      i := i + 1;
    }
    if found != 1 {
      return None;
    }
    id := Some(ring[match'].agentId);
  }
}
