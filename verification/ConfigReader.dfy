/**
 The reader of the binary cluster configuration that a management server sends
 (pkg/mgmapi/config_reader.go).

 The functions say what each read yields at a position of the data; the class is the
 cursor of the source, and its methods are proved against those functions. Machine
 integers are newtypes, so verification also shows that no step overflows.
 */
module ConfigReader {
  import opened Wrappers

  newtype byte = x: int | 0 <= x < 0x100
  newtype uint32 = x: int | 0 <= x < 0x1_0000_0000
  newtype uint64 = x: int | 0 <= x < 0x1_0000_0000_0000_0000
  newtype int64 = x: int | -0x8000_0000_0000_0000 <= x < 0x8000_0000_0000_0000

  /** No Go slice comes near this length; it keeps `offset+4` inside an int. */
  const MAX_SLICE := 0x4000_0000_0000_0000

  /** "NDBCONF2" */
  const CONFIG_MAGIC: seq<byte> := [0x4E, 0x44, 0x42, 0x43, 0x4F, 0x4E, 0x46, 0x32]
  const CONFIG_HEADER_LENGTH := 36

  const ENTRY_TYPE_INT := 1
  const ENTRY_TYPE_STRING := 2
  const ENTRY_TYPE_INT64 := 4

  const SECTION_TYPE_SYSTEM: uint32 := 6

  /** nodeCfgNodeId */
  const NODE_ID_KEY: uint32 := 3

  const KEY_SPAN := 0x1000_0000

  datatype ConfigValue = Uint32(word: uint32) | Uint64(long: uint64) | Chars(chars: seq<byte>)

  datatype Entry = Entry(key: uint32, value: ConfigValue)

  datatype ReadError =
    | InvalidLimit(limit: int)
    | UnexpectedEnd(at: int)
    | ZeroLengthString(at: int)
    | StringExceedsSection(at: int)
    | StringNotTerminated(at: int)
    | UnsupportedEntryType(entryType: int, at: int)
    | InvalidEntry(at: int, cause: ReadError)
    | NodeIdHasWrongType(at: int)
    | NodeIdNotFound(at: int)
    | InvalidSectionLength(length: uint32, at: int)
    | SectionExceedsData(at: int)
    | ShorterThanHeader
    | NotWordAligned(bytes: int)
    | UnexpectedMagic
    | LengthMismatch(words: uint32, bytes: int)
    | UnsupportedVersion(version: uint32)
    | SectionCountsExceedData
    | KeyNotFound(key: uint32)

  /** A value together with the position just after it. */
  type Parsed<T> = Result<(T, nat), ReadError>

  // ----- what one read yields

  function BigEndian(d: seq<byte>, p: nat): uint32
    requires p + 4 <= |d|
  {
    (0x100_0000 * d[p] as int + 0x1_0000 * d[p + 1] as int + 0x100 * d[p + 2] as int + d[p + 3] as int) as uint32
  }

  function WordAt(d: seq<byte>, p: nat, limit: int): (r: Parsed<uint32>)
    ensures r.Ok? ==> r.value.1 == p + 4 <= limit <= |d|
  {
    if limit < 0 || limit > |d| then Err(InvalidLimit(limit))
    else if p + 4 > limit then Err(UnexpectedEnd(p))
    else Ok((BigEndian(d, p), p + 4))
  }

  function Padded(n: nat): (m: nat)
    ensures n <= m < n + 4 && m % 4 == 0
  {
    (n + 3) / 4 * 4
  }

  function StringAt(d: seq<byte>, p: nat, limit: int): (r: Parsed<seq<byte>>)
    ensures r.Ok? ==> p + 8 <= r.value.1 <= limit <= |d| && (r.value.1 - p) % 4 == 0
  {
    match WordAt(d, p, limit)
    case Err(e) => Err(e)
    case Ok((length, q)) =>
      var n := length as nat;
      if n == 0 then Err(ZeroLengthString(p))
      else if Padded(n) > limit - q then Err(StringExceedsSection(p))
      else if d[q + n - 1] != 0 then Err(StringNotTerminated(p))
      else Ok((d[q..q + n - 1], q + Padded(n)))
  }

  function LongAt(d: seq<byte>, p: nat, limit: int): (r: Parsed<uint64>)
    ensures r.Ok? ==> r.value.1 == p + 8 <= limit <= |d|
  {
    match WordAt(d, p, limit)
    case Err(e) => Err(e)
    case Ok((high, q)) =>
      match WordAt(d, q, limit)
      case Err(e) => Err(e)
      case Ok((low, next)) => Ok(((0x1_0000_0000 * high as int + low as int) as uint64, next))
  }

  function EntryAt(d: seq<byte>, p: nat, limit: int): (r: Parsed<Entry>)
    ensures r.Ok? ==> p + 8 <= r.value.1 <= limit <= |d| && (r.value.1 - p) % 4 == 0
  {
    match WordAt(d, p, limit)
    case Err(e) => Err(e)
    case Ok((keyAndType, q)) =>
      var key := (keyAndType as int % KEY_SPAN) as uint32;
      var entryType := keyAndType as int / KEY_SPAN;
      if entryType == ENTRY_TYPE_INT then
        match WordAt(d, q, limit) {
          case Err(e) => Err(e)
          case Ok((v, next)) => Ok((Entry(key, Uint32(v)), next))
        }
      else if entryType == ENTRY_TYPE_INT64 then
        match LongAt(d, q, limit) {
          case Err(e) => Err(e)
          case Ok((v, next)) => Ok((Entry(key, Uint64(v)), next))
        }
      else if entryType == ENTRY_TYPE_STRING then
        match StringAt(d, q, limit) {
          case Err(e) => Err(e)
          case Ok((v, next)) => Ok((Entry(key, Chars(v)), next))
        }
      else Err(UnsupportedEntryType(entryType, p))
  }

  // ----- what one section yields

  /** What has been picked up from a section so far. */
  datatype Scan = Scan(found: Option<ConfigValue>, nodeId: Option<uint32>) {
    predicate Done(isNode: bool) {
      found.Some? && (isNode ==> nodeId.Some?)
    }
  }

  datatype Query = Query(kind: uint32, node: uint32, key: uint32)

  /** Reads entries until the declared count is used up or everything wanted has been found. */
  function ScanEntries(d: seq<byte>, p: nat, limit: int, remaining: nat, isNode: bool,
                       key: uint32, start: nat, s: Scan): Result<Scan, ReadError>
    decreases remaining
  {
    if remaining == 0 || s.Done(isNode) then Ok(s)
    else
      match EntryAt(d, p, limit)
      case Err(e) => Err(InvalidEntry(start, e))
      case Ok((entry, q)) =>
        var s' := if entry.key == key then s.(found := Some(entry.value)) else s;
        if isNode && entry.key == NODE_ID_KEY then
          if entry.value.Uint32? then
            ScanEntries(d, q, limit, remaining - 1, isNode, key, start, s'.(nodeId := Some(entry.value.word)))
          else Err(NodeIdHasWrongType(start))
        else ScanEntries(d, q, limit, remaining - 1, isNode, key, start, s')
  }

  /** The effect of one section: whether to stop, the value held afterwards, and where the section ends. */
  datatype SectionEffect = SectionEffect(stop: bool, held: Option<ConfigValue>, next: nat)

  function SectionAt(d: seq<byte>, p: nat, isNode: bool, query: Query, held: Option<ConfigValue>)
    : (r: Result<SectionEffect, ReadError>)
    ensures r.Ok? ==> p + 12 <= r.value.next <= |d| && (r.value.next - p) % 4 == 0
  {
    match WordAt(d, p, |d|)
    case Err(e) => Err(e)
    case Ok((length, p1)) =>
      if length < 3 then Err(InvalidSectionLength(length, p))
      else
        match WordAt(d, p1, |d|)
        case Err(e) => Err(e)
        case Ok((count, p2)) =>
          match WordAt(d, p2, |d|)
          case Err(e) => Err(e)
          case Ok((kind, p3)) =>
            var payload := 4 * (length as nat - 3);
            if payload > |d| - p3 then Err(SectionExceedsData(p))
            else SectionBody(d, p, p3, p3 + payload, count as nat, kind, isNode, query, held)
  }

  function SectionBody(d: seq<byte>, start: nat, p: nat, end: nat, count: nat, kind: uint32,
                       isNode: bool, query: Query, held: Option<ConfigValue>)
    : (r: Result<SectionEffect, ReadError>)
    ensures r.Ok? ==> r.value.next == end
  {
    if kind != query.kind then Ok(SectionEffect(false, held, end))
    else
      match ScanEntries(d, p, end, count, isNode, query.key, start, Scan(None, None))
      case Err(e) => Err(e)
      case Ok(s) =>
        var held' := if s.found.Some? then s.found else held;
        if !isNode then Ok(SectionEffect(kind == SECTION_TYPE_SYSTEM, held', end))
        else if s.nodeId.None? then Err(NodeIdNotFound(start))
        else if query.node != 0 && query.node != s.nodeId.value then Ok(SectionEffect(false, held, end))
        else Ok(SectionEffect(true, held', end))
  }

  // ----- what the whole configuration yields

  function DefaultSections(d: seq<byte>, p: nat, count: nat, query: Query, held: Option<ConfigValue>)
    : (r: Parsed<Option<ConfigValue>>)
    ensures r.Ok? && p <= |d| ==> p <= r.value.1 <= |d| && (r.value.1 - p) % 4 == 0
    decreases count
  {
    if count == 0 then Ok((held, p))
    else
      match SectionAt(d, p, false, query, held)
      case Err(e) => Err(e)
      case Ok(effect) => DefaultSections(d, effect.next, count - 1, query, effect.held)
  }

  function Answer(held: Option<ConfigValue>, key: uint32): Result<ConfigValue, ReadError> {
    match held
    case None => Err(KeyNotFound(key))
    case Some(v) => Ok(v)
  }

  function NodeSections(d: seq<byte>, p: nat, count: nat, query: Query, held: Option<ConfigValue>)
    : Result<ConfigValue, ReadError>
    decreases count
  {
    if count == 0 then Err(KeyNotFound(query.key))
    else
      match SectionAt(d, p, true, query, held)
      case Err(e) => Err(e)
      case Ok(effect) =>
        if effect.stop then Answer(effect.held, query.key)
        else NodeSections(d, effect.next, count - 1, query, effect.held)
  }

  function Sections(d: seq<byte>, p: nat, defaults: nat, nodes: nat, query: Query): Result<ConfigValue, ReadError> {
    match DefaultSections(d, p, defaults, query, None)
    case Err(e) => Err(e)
    case Ok((held, p1)) =>
      match SectionAt(d, p1, false, query, held)
      case Err(e) => Err(e)
      case Ok(effect) =>
        if effect.stop then Answer(effect.held, query.key)
        else NodeSections(d, effect.next, nodes, query, effect.held)
  }

  /** The value that reading the data for the query yields. */
  function ReadConfigAt(d: seq<byte>, query: Query): Result<ConfigValue, ReadError> {
    if |d| < CONFIG_HEADER_LENGTH then Err(ShorterThanHeader)
    else if |d| % 4 != 0 then Err(NotWordAligned(|d|))
    else if d[..8] != CONFIG_MAGIC then Err(UnexpectedMagic)
    else if 4 * BigEndian(d, 8) as int != |d| then Err(LengthMismatch(BigEndian(d, 8), |d|))
    else if BigEndian(d, 12) != 2 then Err(UnsupportedVersion(BigEndian(d, 12)))
    else
      var defaults := BigEndian(d, 16) as nat;
      var nodes := BigEndian(d, 20) as nat + BigEndian(d, 24) as nat + BigEndian(d, 28) as nat;
      var links := BigEndian(d, 32) as nat;
      if defaults + 1 + nodes + links > (|d| - 36) / 12 then Err(SectionCountsExceedData)
      else Sections(d, 36, defaults, nodes, query)
  }

  // ----- the cursor

  class ConfigReader {
    const data: seq<byte>
    var offset: int64
    var totalLengthInWords: uint32
    var version: uint32
    var numOfDefaultSections: int64
    var numOfNodes: int64
    var numOfCommSections: int64
    var value: Option<ConfigValue>

    /** Entry and section reads begun so far. */
    ghost var work: nat

    ghost predicate Valid()
      reads this
    {
      |data| < MAX_SLICE && 0 <= offset as int <= |data|
    }

    constructor (data: seq<byte>)
      requires |data| < MAX_SLICE
      ensures Valid() && this.data == data && offset == 0 && work == 0
    {
      this.data := data;
      offset, totalLengthInWords, version := 0, 0, 0;
      numOfDefaultSections, numOfNodes, numOfCommSections := 0, 0, 0;
      value := None;
      work := 0;
    }

    method ReadUint32(limit: int64) returns (r: Result<uint32, ReadError>)
      requires Valid()
      modifies this`offset
      ensures Valid()
      ensures match WordAt(data, old(offset) as nat, limit as int)
              case Ok((v, next)) => r == Ok(v) && offset as int == next
              case Err(e) => r == Err(e) && offset == old(offset)
    {
      if limit < 0 || limit as int > |data| {
        return Err(InvalidLimit(limit as int));
      }
      if offset < 0 || offset + 4 > limit {
        return Err(UnexpectedEnd(offset as int));
      }
      r := Ok(BigEndian(data, offset as nat));
      offset := offset + 4;
    }

    method ReadString(limit: int64) returns (r: Result<seq<byte>, ReadError>)
      requires Valid()
      modifies this`offset
      ensures Valid() && old(offset) <= offset && (offset - old(offset)) % 4 == 0
      ensures offset == old(offset) || offset <= limit
      ensures match StringAt(data, old(offset) as nat, limit as int)
              case Ok((v, next)) => r == Ok(v) && offset as int == next
              case Err(e) => r == Err(e)
    {
      var length := ReadUint32(limit);
      if length.Err? {
        return Err(length.error);
      }
      var strLen := length.value;
      if strLen == 0 {
        return Err(ZeroLengthString((offset - 4) as int));
      }
      // (uint64(strLen) + 3) &^ 3
      var paddedLength: uint64 := (strLen as uint64 + 3) / 4 * 4;
      assert paddedLength as int == Padded(strLen as nat);
      if paddedLength > (limit - offset) as uint64 {
        return Err(StringExceedsSection((offset - 4) as int));
      }
      var stringEnd := offset + strLen as int64;
      if data[stringEnd - 1] != 0 {
        return Err(StringNotTerminated((offset - 4) as int));
      }
      r := Ok(data[offset..stringEnd - 1]);
      offset := offset + paddedLength as int64;
    }

    method ReadEntry(limit: int64) returns (r: Result<Entry, ReadError>)
      requires Valid()
      modifies this`offset, this`work
      ensures Valid() && old(offset) <= offset && (offset - old(offset)) % 4 == 0
      ensures offset == old(offset) || offset <= limit
      ensures work == old(work) + 1
      ensures match EntryAt(data, old(offset) as nat, limit as int)
              case Ok((v, next)) => r == Ok(v) && offset as int == next
              case Err(e) => r == Err(e)
    {
      work := work + 1;
      var word := ReadUint32(limit);
      if word.Err? {
        return Err(word.error);
      }
      var keyAndType := word.value;
      var key := keyAndType % 0x1000_0000;
      var keyType := keyAndType / 0x1000_0000;
      if keyType == 1 {
        var v := ReadUint32(limit);
        if v.Err? {
          return Err(v.error);
        }
        return Ok(Entry(key, Uint32(v.value)));
      } else if keyType == 4 {
        var high := ReadUint32(limit);
        if high.Err? {
          return Err(high.error);
        }
        var low := ReadUint32(limit);
        if low.Err? {
          return Err(low.error);
        }
        return Ok(Entry(key, Uint64(high.value as uint64 * 0x1_0000_0000 + low.value as uint64)));
      } else if keyType == 2 {
        var s := ReadString(limit);
        if s.Err? {
          return Err(s.error);
        }
        return Ok(Entry(key, Chars(s.value)));
      } else {
        return Err(UnsupportedEntryType(keyType as int, (offset - 4) as int));
      }
    }

    /** The entry loop of a section: it stops as soon as everything wanted has been found. */
    method ReadEntries(end: int64, numOfEntries: uint32, isNodesSection: bool, configKey: uint32, start: nat)
      returns (r: Result<Scan, ReadError>)
      requires Valid() && offset <= end
      modifies this`offset, this`work
      ensures Valid() && old(offset) <= offset <= end
      ensures old(work) <= work
      ensures 8 * (work - old(work)) <= (offset - old(offset)) as int + 8
      ensures r.Ok? ==> 8 * (work - old(work)) <= (offset - old(offset)) as int
      ensures match ScanEntries(data, old(offset) as nat, end as int, numOfEntries as nat,
                                isNodesSection, configKey, start, Scan(None, None))
              case Ok(s) => r == Ok(s)
              case Err(e) => r == Err(e)
    {
      hide EntryAt;
      var scan := Scan(None, None);
      var entry: uint32 := 0;
      while entry < numOfEntries && !scan.Done(isNodesSection)
        invariant entry <= numOfEntries
        invariant Valid() && old(offset) <= offset <= end
        invariant work == old(work) + entry as nat
        invariant 8 * entry as int <= (offset - old(offset)) as int
        invariant ScanEntries(data, old(offset) as nat, end as int, numOfEntries as nat,
                              isNodesSection, configKey, start, Scan(None, None))
               == ScanEntries(data, offset as nat, end as int, (numOfEntries - entry) as nat,
                              isNodesSection, configKey, start, scan)
        decreases numOfEntries - entry
      {
        var e := ReadEntry(end);
        if e.Err? {
          return Err(InvalidEntry(start, e.error));
        }
        if e.value.key == configKey {
          scan := scan.(found := Some(e.value.value));
        }
        if isNodesSection && e.value.key == NODE_ID_KEY {
          if !e.value.value.Uint32? {
            return Err(NodeIdHasWrongType(start));
          }
          scan := scan.(nodeId := Some(e.value.value.word));
        }
        entry := entry + 1;
      }
      r := Ok(scan);
    }

    method ReadEntryFromSection(isNodesSection: bool, query: Query) returns (r: Result<bool, ReadError>)
      requires Valid()
      modifies this`offset, this`value, this`work
      ensures Valid() && old(offset) <= offset
      ensures old(work) <= work
      ensures 8 * (work - old(work)) <= (offset - old(offset)) as int + 16
      ensures r.Ok? ==> 8 * (work - old(work)) <= (offset - old(offset)) as int
      ensures match SectionAt(data, old(offset) as nat, isNodesSection, query, old(value))
              case Ok(effect) => r == Ok(effect.stop) && value == effect.held && offset as int == effect.next
              case Err(e) => r == Err(e)
    {
      hide ScanEntries, BigEndian, WordAt;
      work := work + 1;
      var sectionStart := offset;
      var limit := |data| as int64;
      var sectionLength := ReadUint32(limit);
      if sectionLength.Err? {
        return Err(sectionLength.error);
      }
      if sectionLength.value < 3 {
        return Err(InvalidSectionLength(sectionLength.value, sectionStart as int));
      }
      var numOfEntries := ReadUint32(limit);
      if numOfEntries.Err? {
        return Err(numOfEntries.error);
      }
      var sectionType := ReadUint32(limit);
      if sectionType.Err? {
        return Err(sectionType.error);
      }
      var payloadBytes: uint64 := (sectionLength.value - 3) as uint64 * 4;
      var remainingBytes := limit - offset;
      if payloadBytes > remainingBytes as uint64 {
        return Err(SectionExceedsData(sectionStart as int));
      }
      var endOfSectionOffset := offset + payloadBytes as int64;
      if sectionType.value != query.kind {
        offset := endOfSectionOffset;
        return Ok(false);
      }
      var scan := ReadEntries(endOfSectionOffset, numOfEntries.value, isNodesSection, query.key, sectionStart as nat);
      if scan.Err? {
        return Err(scan.error);
      }
      offset := endOfSectionOffset;
      if !isNodesSection {
        if scan.value.found.Some? {
          value := scan.value.found;
        }
        return Ok(sectionType.value == SECTION_TYPE_SYSTEM);
      }
      if scan.value.nodeId.None? {
        return Err(NodeIdNotFound(sectionStart as int));
      }
      if query.node != 0 && query.node != scan.value.nodeId.value {
        return Ok(false);
      }
      if scan.value.found.Some? {
        value := scan.value.found;
      }
      return Ok(true);
    }

    /** The header words, and the section counts they declare. */
    method ReadHeader() returns (r: Result<(), ReadError>)
      requires Valid() && |data| >= 36 && offset == 8
      modifies this`offset, this`totalLengthInWords, this`version,
               this`numOfDefaultSections, this`numOfNodes, this`numOfCommSections
      ensures Valid()
      ensures 4 * BigEndian(data, 8) as int != |data| ==> r == Err(LengthMismatch(BigEndian(data, 8), |data|))
      ensures 4 * BigEndian(data, 8) as int == |data| && BigEndian(data, 12) != 2 ==>
                r == Err(UnsupportedVersion(BigEndian(data, 12)))
      ensures 4 * BigEndian(data, 8) as int == |data| && BigEndian(data, 12) == 2 ==>
                var defaults := BigEndian(data, 16) as nat;
                var nodes := BigEndian(data, 20) as nat + BigEndian(data, 24) as nat + BigEndian(data, 28) as nat;
                var links := BigEndian(data, 32) as nat;
                if defaults + 1 + nodes + links > (|data| - 36) / 12 then r == Err(SectionCountsExceedData)
                else r == Ok(()) && offset == 36 && numOfDefaultSections as int == defaults && numOfNodes as int == nodes
    {
      var limit := |data| as int64;
      var word := ReadUint32(limit);
      totalLengthInWords := word.value;
      if totalLengthInWords as uint64 * 4 != limit as uint64 {
        return Err(LengthMismatch(totalLengthInWords, limit as int));
      }
      word := ReadUint32(limit);
      version := word.value;
      if version != 2 {
        return Err(UnsupportedVersion(version));
      }
      var defaults := ReadUint32(limit);
      var nodes: uint64 := 0;
      for i := 0 to 3
        invariant Valid() && offset as int == 20 + 4 * i
        invariant nodes as int == (if i > 0 then BigEndian(data, 20) as int else 0)
                                + (if i > 1 then BigEndian(data, 24) as int else 0)
                                + (if i > 2 then BigEndian(data, 28) as int else 0)
      {
        word := ReadUint32(limit);
        nodes := nodes + word.value as uint64;
      }
      var links := ReadUint32(limit);
      var minimum: uint64 := defaults.value as uint64 + 1 + nodes + links.value as uint64;
      var maximum: uint64 := (limit - offset) as uint64 / 12;
      if minimum > maximum {
        return Err(SectionCountsExceedData);
      }
      numOfDefaultSections := defaults.value as int64;
      numOfNodes := nodes as int64;
      numOfCommSections := links.value as int64;
      return Ok(());
    }

    /**
     Total on every input. The cursor never leaves the data, it is back at the start
     afterwards, and the work is linear in the data whatever the counts in it declare.
     */
    method ReadConfig(query: Query) returns (r: Result<ConfigValue, ReadError>)
      requires Valid()
      modifies this
      ensures Valid() && offset == 0
      ensures r == ReadConfigAt(data, query)
      ensures 8 * (work - old(work)) <= |data| + 16
    {
      hide Sections;
      offset, totalLengthInWords, version := 0, 0, 0;
      numOfDefaultSections, numOfNodes, numOfCommSections := 0, 0, 0;
      value := None;
      var limit := |data| as int64;
      if limit < 36 {
        return Err(ShorterThanHeader);
      }
      if limit % 4 != 0 {
        return Err(NotWordAligned(limit as int));
      }
      if data[..8] != CONFIG_MAGIC {
        return Err(UnexpectedMagic);
      }
      offset := 8;
      var header := ReadHeader();
      if header.Err? {
        offset := 0;
        return Err(header.error);
      }
      r := ReadSections(query);
      offset := 0;
    }

    method ReadSections(query: Query) returns (r: Result<ConfigValue, ReadError>)
      requires Valid() && offset == 36 && value == None
      requires 0 <= numOfDefaultSections && 0 <= numOfNodes
      modifies this`offset, this`value, this`work
      ensures Valid()
      ensures r == Sections(data, 36, numOfDefaultSections as nat, numOfNodes as nat, query)
      ensures 8 * (work - old(work)) <= |data| + 16
    {
      var defaults := ReadDefaultSections(query);
      if defaults.Err? {
        return Err(defaults.error);
      }
      var stopReading := ReadEntryFromSection(false, query);
      if stopReading.Err? {
        return Err(stopReading.error);
      }
      if stopReading.value {
        return Answer(value, query.key);
      }
      r := ReadNodeSections(query);
    }

    method ReadDefaultSections(query: Query) returns (r: Result<(), ReadError>)
      requires Valid() && 0 <= numOfDefaultSections
      modifies this`offset, this`value, this`work
      ensures Valid() && old(offset) <= offset
      ensures 8 * (work - old(work)) <= (offset - old(offset)) as int + (if r.Ok? then 0 else 16)
      ensures match DefaultSections(data, old(offset) as nat, numOfDefaultSections as nat, query, old(value))
              case Ok((held, next)) => r == Ok(()) && value == held && offset as int == next
              case Err(e) => r == Err(e)
    {
      hide SectionAt;
      var ds: int64 := 0;
      while ds < numOfDefaultSections
        invariant Valid() && 0 <= ds <= numOfDefaultSections && old(offset) <= offset
        invariant 8 * (work - old(work)) <= (offset - old(offset)) as int
        invariant DefaultSections(data, old(offset) as nat, numOfDefaultSections as nat, query, old(value))
               == DefaultSections(data, offset as nat, (numOfDefaultSections - ds) as nat, query, value)
      {
        var section := ReadEntryFromSection(false, query);
        if section.Err? {
          return Err(section.error);
        }
        ds := ds + 1;
      }
      r := Ok(());
    }

    method ReadNodeSections(query: Query) returns (r: Result<ConfigValue, ReadError>)
      requires Valid() && 0 <= numOfNodes
      modifies this`offset, this`value, this`work
      ensures Valid() && old(offset) <= offset
      ensures 8 * (work - old(work)) <= (offset - old(offset)) as int + 16
      ensures r == NodeSections(data, old(offset) as nat, numOfNodes as nat, query, old(value))
    {
      hide SectionAt;
      var n: int64 := 0;
      while n < numOfNodes
        invariant Valid() && 0 <= n <= numOfNodes && old(offset) <= offset
        invariant 8 * (work - old(work)) <= (offset - old(offset)) as int
        invariant NodeSections(data, old(offset) as nat, numOfNodes as nat, query, old(value))
               == NodeSections(data, offset as nat, (numOfNodes - n) as nat, query, value)
      {
        var stopReading := ReadEntryFromSection(true, query);
        if stopReading.Err? {
          return Err(stopReading.error);
        }
        if stopReading.value {
          return Answer(value, query.key);
        }
        n := n + 1;
      }
      return Err(KeyNotFound(query.key));
    }
  }
}
