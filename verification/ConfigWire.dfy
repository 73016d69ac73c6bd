/**
 What the binary configuration means: an abstract configuration, its encoding, and a
 lookup that does not mention bytes. The reader is proved to answer every query about an
 encoded configuration exactly as the lookup does.
 */
module ConfigWire {
  import opened Wrappers
  import opened ConfigReader

  /** An entry on the wire. The padding after a string may hold anything. */
  datatype WireEntry = WireEntry(entry: Entry, pad: seq<byte>)

  /** A section lists entries, or is a blob that only sections of another kind may be. */
  datatype Section =
    | Listing(kind: uint32, entries: seq<WireEntry>, slack: seq<byte>)
    | Blob(kind: uint32, count: uint32, payload: seq<byte>)

  /** `rest` is the communication part, `links` the number of sections it is declared to hold. */
  datatype Layout = Layout(defaults: seq<Section>, system: Section, nodes: seq<Section>,
                           dbNodes: uint32, apiNodes: uint32, mgmNodes: uint32,
                           links: uint32, rest: seq<byte>)

  // ----- encoding

  function Word(w: nat): (b: seq<byte>)
    requires w < 0x1_0000_0000
    ensures |b| == 4
  {
    [(w / 0x100_0000) as byte, (w / 0x1_0000 % 0x100) as byte, (w / 0x100 % 0x100) as byte, (w % 0x100) as byte]
  }

  predicate EntryFits(e: WireEntry) {
    && e.entry.key as int < KEY_SPAN
    && match e.entry.value
       case Chars(s) => |s| + 1 < 0x1_0000_0000 && |e.pad| == Padded(|s| + 1) - (|s| + 1)
       case _ => e.pad == []
  }

  function Tag(entryType: nat, key: uint32): seq<byte>
    requires entryType < 16 && key as int < KEY_SPAN
  {
    Word(entryType * KEY_SPAN + key as nat)
  }

  /** Padding fills a text up to whole words. */
  lemma PaddedText(s: seq<byte>, pad: seq<byte>)
    requires |pad| == Padded(|s| + 1) - (|s| + 1)
    ensures |s + [0] + pad| == Padded(|s| + 1) && |s + [0] + pad| % 4 == 0
  {
  }

  function EncodeEntry(e: WireEntry): (b: seq<byte>)
    requires EntryFits(e)
    ensures |b| >= 8 && |b| % 4 == 0
  {
    match e.entry.value
    case Uint32(v) => Tag(ENTRY_TYPE_INT, e.entry.key) + Word(v as nat)
    case Uint64(v) => Tag(ENTRY_TYPE_INT64, e.entry.key) + Word(v as nat / 0x1_0000_0000) + Word(v as nat % 0x1_0000_0000)
    case Chars(s) =>
      PaddedText(s, e.pad);
      Tag(ENTRY_TYPE_STRING, e.entry.key) + Word(|s| + 1) + (s + [0] + e.pad)
  }

  /** Whole words joined are whole words. */
  lemma WordsJoin(a: seq<byte>, b: seq<byte>)
    requires |a| % 4 == 0 && |b| % 4 == 0
    ensures |a + b| == |a| + |b| && |a + b| % 4 == 0
  {
  }

  predicate EntriesFit(entries: seq<WireEntry>) {
    entries == [] || (EntryFits(entries[0]) && EntriesFit(entries[1..]))
  }

  function EncodeEntries(entries: seq<WireEntry>): (b: seq<byte>)
    requires EntriesFit(entries)
    ensures |b| % 4 == 0
  {
    if entries == [] then []
    else
      var first, rest := EncodeEntry(entries[0]), EncodeEntries(entries[1..]);
      WordsJoin(first, rest);
      first + rest
  }

  function Payload(s: Section): (b: seq<byte>)
    requires s.Listing? ==> EntriesFit(s.entries)
  {
    match s
    case Listing(_, entries, slack) => EncodeEntries(entries) + slack
    case Blob(_, _, payload) => payload
  }

  predicate SectionFits(s: Section) {
    && (s.Listing? ==> |s.entries| < 0x1_0000_0000 && EntriesFit(s.entries))
    && |Payload(s)| % 4 == 0
    && 3 + |Payload(s)| / 4 < 0x1_0000_0000
  }

  function DeclaredCount(s: Section): nat {
    if s.Listing? then |s.entries| else s.count as nat
  }

  function EncodeSection(s: Section): (b: seq<byte>)
    requires SectionFits(s)
    ensures |b| >= 12 && |b| % 4 == 0
  {
    Word(3 + |Payload(s)| / 4) + Word(DeclaredCount(s)) + Word(s.kind as nat) + Payload(s)
  }

  predicate SectionsFit(sections: seq<Section>) {
    sections == [] || (SectionFits(sections[0]) && SectionsFit(sections[1..]))
  }

  function EncodeSections(sections: seq<Section>): (b: seq<byte>)
    requires SectionsFit(sections)
    ensures |b| >= 12 * |sections| && |b| % 4 == 0
  {
    if sections == [] then []
    else
      var first, rest := EncodeSection(sections[0]), EncodeSections(sections[1..]);
      WordsJoin(first, rest);
      first + rest
  }

  predicate LayoutFits(c: Layout) {
    && SectionsFit(c.defaults) && SectionFits(c.system) && SectionsFit(c.nodes)
    && c.dbNodes as int + c.apiNodes as int + c.mgmNodes as int == |c.nodes|
    && |c.rest| % 4 == 0 && |c.rest| >= 12 * c.links as int
    && 36 + |Body(c)| < 0x4_0000_0000
  }

  function Body(c: Layout): seq<byte>
    requires SectionsFit(c.defaults) && SectionFits(c.system) && SectionsFit(c.nodes)
  {
    EncodeSections(c.defaults) + (EncodeSection(c.system) + (EncodeSections(c.nodes) + c.rest))
  }

  lemma BodySize(c: Layout)
    requires SectionsFit(c.defaults) && SectionFits(c.system) && SectionsFit(c.nodes)
    ensures |c.rest| % 4 == 0 ==> |Body(c)| % 4 == 0
    ensures |Body(c)| >= 12 * (|c.defaults| + 1 + |c.nodes|) + |c.rest|
  {
    hide EncodeSections, EncodeSection, SectionFits, SectionsFit;
  }

  function Header(c: Layout): (b: seq<byte>)
    requires LayoutFits(c)
    ensures |b| == 36
  {
    BodySize(c);
    CONFIG_MAGIC + (Word((36 + |Body(c)|) / 4) + (Word(2) + (Word(|c.defaults|)
    + (Word(c.dbNodes as nat) + (Word(c.apiNodes as nat) + (Word(c.mgmNodes as nat) + Word(c.links as nat)))))))
  }

  function Encode(c: Layout): seq<byte>
    requires LayoutFits(c)
  {
    Header(c) + Body(c)
  }

  // ----- meaning

  /** The value of the first entry with the key. */
  function ValueOf(entries: seq<WireEntry>, key: uint32): Option<ConfigValue> {
    if entries == [] then None
    else if entries[0].entry.key == key then Some(entries[0].entry.value)
    else ValueOf(entries[1..], key)
  }

  predicate UniqueKeys(entries: seq<WireEntry>) {
    forall i, j :: 0 <= i < j < |entries| ==> entries[i].entry.key != entries[j].entry.key
  }

  /** A section of the queried kind has to list its entries, with unique keys. */
  predicate Readable(s: Section, kind: uint32) {
    s.kind == kind ==> s.Listing? && UniqueKeys(s.entries)
  }

  /** A node section of the queried kind also has to carry its node id. */
  predicate ReadableNode(s: Section, kind: uint32) {
    && Readable(s, kind)
    && (s.kind == kind ==> match ValueOf(s.entries, NODE_ID_KEY)
                           case Some(Uint32(_)) => true
                           case _ => false)
  }

  predicate WellFormed(c: Layout, kind: uint32) {
    && (forall s :: s in c.defaults ==> Readable(s, kind))
    && Readable(c.system, kind)
    && (forall s :: s in c.nodes ==> ReadableNode(s, kind))
  }

  function Override(s: Section, query: Query, held: Option<ConfigValue>): Option<ConfigValue>
    requires Readable(s, query.kind)
  {
    if s.kind == query.kind && ValueOf(s.entries, query.key).Some? then ValueOf(s.entries, query.key) else held
  }

  /** The value given by the defaults: the last section of the kind that has the key decides. */
  function DefaultOf(sections: seq<Section>, query: Query): Option<ConfigValue>
    requires forall s :: s in sections ==> Readable(s, query.kind)
  {
    if sections == [] then None
    else Override(sections[|sections| - 1], query, DefaultOf(sections[..|sections| - 1], query))
  }

  predicate Wanted(s: Section, query: Query)
    requires ReadableNode(s, query.kind)
  {
    s.kind == query.kind && (query.node == 0 || ValueOf(s.entries, NODE_ID_KEY).value.word == query.node)
  }

  /** The first node section of the kind with the node id, any node id when 0 is asked for. */
  function NodeOf(nodes: seq<Section>, query: Query): (r: Option<Section>)
    requires forall s :: s in nodes ==> ReadableNode(s, query.kind)
    ensures r.Some? ==> r.value in nodes && Wanted(r.value, query)
    ensures r.None? ==> forall s :: s in nodes ==> !Wanted(s, query)
  {
    if nodes == [] then None
    else if Wanted(nodes[0], query) then Some(nodes[0])
    else NodeOf(nodes[1..], query)
  }

  /** The requested value: the node's own, else the matching default, else nothing. */
  function Lookup(c: Layout, query: Query): Option<ConfigValue>
    requires WellFormed(c, query.kind)
  {
    var held := DefaultOf(c.defaults + [c.system], query);
    if c.system.kind == query.kind == SECTION_TYPE_SYSTEM then held
    else
      match NodeOf(c.nodes, query)
      case None => None
      case Some(node) => Override(node, query, held)
  }

  // ----- the reader on encoded data

  /** `b` stands at position `p` of `d`. */
  ghost predicate At(d: seq<byte>, p: nat, b: seq<byte>) {
    p + |b| <= |d| && d[p..p + |b|] == b
  }

  lemma AtSplit(d: seq<byte>, p: nat, a: seq<byte>, b: seq<byte>)
    requires At(d, p, a + b)
    ensures At(d, p, a) && At(d, p + |a|, b)
  {
    var ab := d[p..p + |a + b|];
    assert ab[..|a|] == a && ab[|a|..] == b;
  }

  lemma WordReads(d: seq<byte>, p: nat, w: nat)
    requires w < 0x1_0000_0000 && At(d, p, Word(w))
    ensures BigEndian(d, p) as nat == w
  {
    var b := d[p..p + 4];
    assert b[0] == d[p] && b[1] == d[p + 1] && b[2] == d[p + 2] && b[3] == d[p + 3];
    var w1 := w / 0x100;
    assert w == 0x100 * w1 + w % 0x100;
    assert w1 == 0x100 * (w / 0x1_0000) + w / 0x100 % 0x100;
    assert w / 0x1_0000 == 0x100 * (w / 0x100_0000) + w / 0x1_0000 % 0x100;
  }

  lemma WordAtReads(d: seq<byte>, p: nat, limit: nat, w: nat)
    requires w < 0x1_0000_0000 && At(d, p, Word(w)) && p + 4 <= limit <= |d|
    ensures WordAt(d, p, limit) == Ok((w as uint32, p + 4))
  {
    WordReads(d, p, w);
  }

  lemma StringReads(d: seq<byte>, p: nat, limit: nat, s: seq<byte>, pad: seq<byte>)
    requires |s| + 1 < 0x1_0000_0000 && |pad| == Padded(|s| + 1) - (|s| + 1)
    requires At(d, p, Word(|s| + 1) + (s + [0] + pad)) && p + 4 + |s + [0] + pad| <= limit <= |d|
    ensures StringAt(d, p, limit) == Ok((s, p + 4 + Padded(|s| + 1)))
  {
    hide Word, WordAt;
    AtSplit(d, p, Word(|s| + 1), s + [0] + pad);
    WordAtReads(d, p, limit, |s| + 1);
    AtSplit(d, p + 4, s + [0], pad);
    AtSplit(d, p + 4, s, [0]);
    var zero := d[p + 4 + |s|..p + 4 + |s| + 1];
    assert zero == [0] && zero[0] == d[p + 4 + |s|];
  }

  lemma Associate(a: seq<byte>, b: seq<byte>, c: seq<byte>)
    ensures a + b + c == a + (b + c)
  {
  }

  lemma LongReads(d: seq<byte>, p: nat, limit: nat, high: nat, low: nat)
    requires high < 0x1_0000_0000 && low < 0x1_0000_0000
    requires At(d, p, Word(high) + Word(low)) && p + 8 <= limit <= |d|
    ensures LongAt(d, p, limit) == Ok(((0x1_0000_0000 * high + low) as uint64, p + 8))
  {
    hide Word, WordAt;
    AtSplit(d, p, Word(high), Word(low));
    WordAtReads(d, p, limit, high);
    WordAtReads(d, p + 4, limit, low);
  }

  /** The first word of an entry gives its type and its key back. */
  lemma TagReads(d: seq<byte>, p: nat, limit: nat, entryType: nat, key: uint32)
    requires entryType < 16 && key as int < KEY_SPAN && At(d, p, Tag(entryType, key)) && p + 4 <= limit <= |d|
    ensures WordAt(d, p, limit) == Ok(((entryType * KEY_SPAN + key as nat) as uint32, p + 4))
    ensures (entryType * KEY_SPAN + key as nat) % KEY_SPAN == key as nat
    ensures (entryType * KEY_SPAN + key as nat) / KEY_SPAN == entryType
  {
    hide Word, WordAt;
    WordAtReads(d, p, limit, entryType * KEY_SPAN + key as nat);
  }

  lemma NumberReads(d: seq<byte>, p: nat, limit: nat, e: WireEntry)
    requires e.entry.value.Uint32?
    requires EntryFits(e) && At(d, p, EncodeEntry(e)) && p + |EncodeEntry(e)| <= limit <= |d|
    ensures EntryAt(d, p, limit) == Ok((e.entry, p + |EncodeEntry(e)|))
  {
    hide Word, WordAt, StringAt, LongAt;
    var v := e.entry.value.word as nat;
    AtSplit(d, p, Tag(ENTRY_TYPE_INT, e.entry.key), Word(v));
    TagReads(d, p, limit, ENTRY_TYPE_INT, e.entry.key);
    WordAtReads(d, p + 4, limit, v);
  }

  lemma LongNumberReads(d: seq<byte>, p: nat, limit: nat, e: WireEntry)
    requires e.entry.value.Uint64?
    requires EntryFits(e) && At(d, p, EncodeEntry(e)) && p + |EncodeEntry(e)| <= limit <= |d|
    ensures EntryAt(d, p, limit) == Ok((e.entry, p + |EncodeEntry(e)|))
  {
    hide Word, WordAt, StringAt, LongAt;
    var v := e.entry.value.long as nat;
    var high, low := v / 0x1_0000_0000, v % 0x1_0000_0000;
    var tag := Tag(ENTRY_TYPE_INT64, e.entry.key);
    Associate(tag, Word(high), Word(low));
    AtSplit(d, p, tag, Word(high) + Word(low));
    TagReads(d, p, limit, ENTRY_TYPE_INT64, e.entry.key);
    LongReads(d, p + 4, limit, high, low);
  }

  lemma TextReads(d: seq<byte>, p: nat, limit: nat, e: WireEntry)
    requires e.entry.value.Chars?
    requires EntryFits(e) && At(d, p, EncodeEntry(e)) && p + |EncodeEntry(e)| <= limit <= |d|
    ensures EntryAt(d, p, limit) == Ok((e.entry, p + |EncodeEntry(e)|))
  {
    hide Word, WordAt, StringAt, LongAt, Padded;
    var s := e.entry.value.chars;
    var tag := Tag(ENTRY_TYPE_STRING, e.entry.key);
    PaddedText(s, e.pad);
    Associate(tag, Word(|s| + 1), s + [0] + e.pad);
    AtSplit(d, p, tag, Word(|s| + 1) + (s + [0] + e.pad));
    TagReads(d, p, limit, ENTRY_TYPE_STRING, e.entry.key);
    StringReads(d, p + 4, limit, s, e.pad);
  }

  lemma EntryReads(d: seq<byte>, p: nat, limit: nat, e: WireEntry)
    requires EntryFits(e) && At(d, p, EncodeEntry(e)) && p + |EncodeEntry(e)| <= limit <= |d|
    ensures EntryAt(d, p, limit) == Ok((e.entry, p + |EncodeEntry(e)|))
  {
    hide EntryAt, EncodeEntry, EntryFits;
    match e.entry.value
    case Uint32(_) => NumberReads(d, p, limit, e);
    case Uint64(_) => LongNumberReads(d, p, limit, e);
    case Chars(_) => TextReads(d, p, limit, e);
  }

  /** Early exit does not matter: what has been found cannot be found again. */
  lemma {:induction false} ScanReads(d: seq<byte>, p: nat, limit: nat, entries: seq<WireEntry>, isNode: bool,
                                     key: uint32, start: nat, s: Scan)
    requires UniqueKeys(entries) && EntriesFit(entries)
    requires At(d, p, EncodeEntries(entries)) && p + |EncodeEntries(entries)| <= limit <= |d|
    requires s.found.Some? ==> ValueOf(entries, key).None?
    requires s.nodeId.Some? ==> isNode && ValueOf(entries, NODE_ID_KEY).None?
    requires isNode && ValueOf(entries, NODE_ID_KEY).Some? ==> ValueOf(entries, NODE_ID_KEY).value.Uint32?
    ensures ScanEntries(d, p, limit, |entries|, isNode, key, start, s)
         == Ok(Scan(if s.found.Some? then s.found else ValueOf(entries, key),
                    if isNode && s.nodeId.None? && ValueOf(entries, NODE_ID_KEY).Some?
                    then Some(ValueOf(entries, NODE_ID_KEY).value.word) else s.nodeId))
    decreases |entries|
  {
    hide EntryAt, EncodeEntry, EntryFits;
    if entries != [] && !s.Done(isNode) {
      var e, rest := entries[0], entries[1..];
      AtSplit(d, p, EncodeEntry(e), EncodeEntries(rest));
      EntryReads(d, p, limit, e);
      NoLaterValue(entries);
      var s1 := if e.entry.key == key then s.(found := Some(e.entry.value)) else s;
      var s2 := if isNode && e.entry.key == NODE_ID_KEY then s1.(nodeId := Some(e.entry.value.word)) else s1;
      ScanReads(d, p + |EncodeEntry(e)|, limit, rest, isNode, key, start, s2);
    }
  }

  lemma NoLaterValue(entries: seq<WireEntry>)
    requires UniqueKeys(entries) && entries != []
    ensures ValueOf(entries[1..], entries[0].entry.key).None?
    ensures UniqueKeys(entries[1..])
  {
    assert forall j :: 0 <= j < |entries[1..]| ==> entries[1..][j].entry.key != entries[0].entry.key;
    AbsentValue(entries[1..], entries[0].entry.key);
  }

  lemma AbsentValue(entries: seq<WireEntry>, key: uint32)
    requires forall j :: 0 <= j < |entries| ==> entries[j].entry.key != key
    ensures ValueOf(entries, key).None?
  {
  }

  lemma SectionReads(d: seq<byte>, p: nat, s: Section, isNode: bool, query: Query, held: Option<ConfigValue>)
    requires SectionFits(s) && At(d, p, EncodeSection(s))
    requires if isNode then ReadableNode(s, query.kind) else Readable(s, query.kind)
    ensures SectionAt(d, p, isNode, query, held)
         == Ok(SectionEffect(
                 if isNode then Wanted(s, query) else s.kind == query.kind == SECTION_TYPE_SYSTEM,
                 if isNode && !Wanted(s, query) then held else Override(s, query, held),
                 p + |EncodeSection(s)|))
  {
    hide Word, WordAt, EncodeEntries, ScanEntries, ValueOf, SectionFits, EncodeSection, SectionBody;
    SectionHeaderReads(d, p, s);
    BodyReads(d, p, s, isNode, query, held);
  }

  lemma SectionHeaderReads(d: seq<byte>, p: nat, s: Section)
    requires SectionFits(s) && At(d, p, EncodeSection(s))
    ensures |EncodeSection(s)| == 12 + |Payload(s)| && |Payload(s)| % 4 == 0
    ensures 3 + |Payload(s)| / 4 < 0x1_0000_0000 && DeclaredCount(s) < 0x1_0000_0000
    ensures WordAt(d, p, |d|) == Ok(((3 + |Payload(s)| / 4) as uint32, p + 4))
    ensures WordAt(d, p + 4, |d|) == Ok((DeclaredCount(s) as uint32, p + 8))
    ensures WordAt(d, p + 8, |d|) == Ok((s.kind, p + 12))
    ensures At(d, p + 12, Payload(s))
  {
    hide Word, WordAt, EncodeEntries, Payload;
    var length, payload := 3 + |Payload(s)| / 4, Payload(s);
    AtSplit(d, p, Word(length) + Word(DeclaredCount(s)) + Word(s.kind as nat), payload);
    AtSplit(d, p, Word(length) + Word(DeclaredCount(s)), Word(s.kind as nat));
    AtSplit(d, p, Word(length), Word(DeclaredCount(s)));
    WordAtReads(d, p, |d|, length);
    WordAtReads(d, p + 4, |d|, DeclaredCount(s));
    WordAtReads(d, p + 8, |d|, s.kind as nat);
  }

  lemma BodyReads(d: seq<byte>, p: nat, s: Section, isNode: bool, query: Query, held: Option<ConfigValue>)
    requires SectionFits(s) && At(d, p + 12, Payload(s)) && p + 12 + |Payload(s)| <= |d|
    requires if isNode then ReadableNode(s, query.kind) else Readable(s, query.kind)
    ensures var end := p + 12 + |Payload(s)|;
            SectionBody(d, p, p + 12, end, DeclaredCount(s), s.kind, isNode, query, held)
            == Ok(SectionEffect(
                    if isNode then Wanted(s, query) else s.kind == query.kind == SECTION_TYPE_SYSTEM,
                    if isNode && !Wanted(s, query) then held else Override(s, query, held),
                    end))
  {
    hide EncodeEntries, ScanEntries, ValueOf;
    if s.kind == query.kind {
      AtSplit(d, p + 12, EncodeEntries(s.entries), s.slack);
      ScanReads(d, p + 12, p + 12 + |Payload(s)|, s.entries, isNode, query.key, p, Scan(None, None));
    }
  }

  lemma {:induction false} DefaultsRead(d: seq<byte>, p: nat, sections: seq<Section>, done: seq<Section>, query: Query)
    requires SectionsFit(sections) && forall s :: s in sections ==> Readable(s, query.kind)
    requires forall s :: s in done ==> Readable(s, query.kind)
    requires At(d, p, EncodeSections(sections))
    ensures DefaultSections(d, p, |sections|, query, DefaultOf(done, query))
         == Ok((DefaultOf(done + sections, query), p + |EncodeSections(sections)|))
    decreases |sections|
  {
    hide SectionAt, EncodeSection, SectionFits;
    if sections == [] {
      assert done + sections == done;
    } else {
      var s, rest := sections[0], sections[1..];
      AtSplit(d, p, EncodeSection(s), EncodeSections(rest));
      SectionReads(d, p, s, false, query, DefaultOf(done, query));
      assert (done + [s])[..|done|] == done;
      assert done + sections == (done + [s]) + rest;
      DefaultsRead(d, p + |EncodeSection(s)|, rest, done + [s], query);
    }
  }

  lemma {:induction false} NodesRead(d: seq<byte>, p: nat, nodes: seq<Section>, query: Query, held: Option<ConfigValue>)
    requires SectionsFit(nodes) && forall s :: s in nodes ==> ReadableNode(s, query.kind)
    requires At(d, p, EncodeSections(nodes))
    ensures NodeSections(d, p, |nodes|, query, held)
         == match NodeOf(nodes, query)
            case None => Err(KeyNotFound(query.key))
            case Some(node) => Answer(Override(node, query, held), query.key)
    decreases |nodes|
  {
    hide SectionAt, EncodeSection, SectionFits;
    if nodes != [] {
      var s, rest := nodes[0], nodes[1..];
      AtSplit(d, p, EncodeSection(s), EncodeSections(rest));
      SectionReads(d, p, s, true, query, held);
      if !Wanted(s, query) {
        NodesRead(d, p + |EncodeSection(s)|, rest, query, held);
      }
    }
  }

  lemma HeaderReads(c: Layout)
    requires LayoutFits(c)
    ensures var d := Encode(c);
            && |d| == 36 + |Body(c)| && |d| % 4 == 0 && d[..8] == CONFIG_MAGIC
            && 4 * BigEndian(d, 8) as int == |d| && BigEndian(d, 12) == 2
            && BigEndian(d, 16) as nat == |c.defaults|
            && BigEndian(d, 20) == c.dbNodes && BigEndian(d, 24) == c.apiNodes && BigEndian(d, 28) == c.mgmNodes
            && BigEndian(d, 32) == c.links
            && At(d, 36, Body(c))
  {
    hide Word, Body, SectionFits, SectionsFit, BigEndian;
    var d := Encode(c);
    BodySize(c);
    assert At(d, 0, Header(c) + Body(c));
    AtSplit(d, 0, Header(c), Body(c));
    var w7 := Word(c.links as nat);
    var w6 := Word(c.mgmNodes as nat) + w7;
    var w5 := Word(c.apiNodes as nat) + w6;
    var w4 := Word(c.dbNodes as nat) + w5;
    var w3 := Word(|c.defaults|) + w4;
    var w2 := Word(2) + w3;
    var w1 := Word((36 + |Body(c)|) / 4) + w2;
    AtSplit(d, 0, CONFIG_MAGIC, w1);
    AtSplit(d, 8, Word((36 + |Body(c)|) / 4), w2);
    AtSplit(d, 12, Word(2), w3);
    AtSplit(d, 16, Word(|c.defaults|), w4);
    AtSplit(d, 20, Word(c.dbNodes as nat), w5);
    AtSplit(d, 24, Word(c.apiNodes as nat), w6);
    AtSplit(d, 28, Word(c.mgmNodes as nat), w7);
    WordReads(d, 8, (36 + |Body(c)|) / 4);
    WordReads(d, 12, 2);
    WordReads(d, 16, |c.defaults|);
    WordReads(d, 20, c.dbNodes as nat);
    WordReads(d, 24, c.apiNodes as nat);
    WordReads(d, 28, c.mgmNodes as nat);
    WordReads(d, 32, c.links as nat);
    assert d[..8] == CONFIG_MAGIC;
  }

  /** The three runs of sections in the body, at their positions. */
  lemma BodyAt(d: seq<byte>, c: Layout)
    requires SectionsFit(c.defaults) && SectionFits(c.system) && SectionsFit(c.nodes) && At(d, 36, Body(c))
    ensures var p1 := 36 + |EncodeSections(c.defaults)|;
            var p2 := p1 + |EncodeSection(c.system)|;
            && At(d, 36, EncodeSections(c.defaults)) && At(d, p1, EncodeSection(c.system)) && At(d, p2, EncodeSections(c.nodes))
  {
    hide EncodeSection, EncodeSections, SectionFits, SectionsFit, At;
    var tail2 := EncodeSections(c.nodes) + c.rest;
    var tail1 := EncodeSection(c.system) + tail2;
    AtSplit(d, 36, EncodeSections(c.defaults), tail1);
    var p1 := 36 + |EncodeSections(c.defaults)|;
    AtSplit(d, p1, EncodeSection(c.system), tail2);
    AtSplit(d, p1 + |EncodeSection(c.system)|, EncodeSections(c.nodes), c.rest);
  }

  lemma DefaultsThenSystem(c: Layout, query: Query)
    requires WellFormed(c, query.kind)
    ensures forall s :: s in c.defaults + [c.system] ==> Readable(s, query.kind)
    ensures DefaultOf(c.defaults + [c.system], query) == Override(c.system, query, DefaultOf(c.defaults, query))
  {
    hide Override, Readable, ReadableNode;
    assert (c.defaults + [c.system])[..|c.defaults|] == c.defaults;
  }

  lemma SectionsAnswerLookup(d: seq<byte>, c: Layout, query: Query)
    requires SectionsFit(c.defaults) && SectionFits(c.system) && SectionsFit(c.nodes) && At(d, 36, Body(c))
    requires WellFormed(c, query.kind)
    ensures Sections(d, 36, |c.defaults|, |c.nodes|, query) == Answer(Lookup(c, query), query.key)
  {
    hide EncodeSection, EncodeSections, DefaultSections, NodeSections, SectionAt, SectionFits, SectionsFit, At, Body, Override,
      Readable, ReadableNode, DefaultOf, NodeOf, Wanted;
    BodyAt(d, c);
    var p1 := 36 + |EncodeSections(c.defaults)|;
    var p2 := p1 + |EncodeSection(c.system)|;
    assert [] + c.defaults == c.defaults;
    NoDefaults(query);
    DefaultsRead(d, 36, c.defaults, [], query);
    var held := DefaultOf(c.defaults, query);
    SectionReads(d, p1, c.system, false, query, held);
    DefaultsThenSystem(c, query);
    NodesRead(d, p2, c.nodes, query, Override(c.system, query, held));
  }

  lemma NoDefaults(query: Query)
    ensures DefaultOf([], query) == None
  {
  }

  /**
   Reading an encoded configuration answers every query as the lookup does. Sections of
   other kinds may hold any payload and declare any count, slack after the entries and the
   padding of strings may hold any bytes: none of it reaches the answer.
   */
  lemma ReaderAnswersLookup(c: Layout, query: Query)
    requires LayoutFits(c) && WellFormed(c, query.kind)
    ensures ReadConfigAt(Encode(c), query) == Answer(Lookup(c, query), query.key)
  {
    hide Word, Encode, Header, Body, Sections, Lookup, SectionFits, SectionsFit, BigEndian, At, WellFormed;
    var d := Encode(c);
    HeaderReads(c);
    BodySize(c);
    SectionsAnswerLookup(d, c, query);
  }
}
