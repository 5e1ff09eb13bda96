/**
 The trace: what recordings are written as. Every packet is a message of the schema's field numbers,
 and strings are interned: declared once, with an id that later events refer to them by.
 */
module TraceWriter {
  import opened Basics
  import opened Wire
  import opened TrackerModel

  // ---- The schema's numbers ----

  const PACKET_SEQUENCE_ID: Word := 1
  const ROOT_TRACK_UUID: Word := 1
  const TYPE_SLICE_BEGIN: Word := 1
  const TYPE_SLICE_END: Word := 2
  const TYPE_INSTANT: Word := 3
  const BUILDPROF_EXTENSION_FIELD: FieldNumber := 9900
  const MERGE_BY_KEY: Word := 3
  const STATE_CLEARED: Word := 1
  const NEEDS_STATE: Word := 2

  const PACKET: FieldNumber := 1

  const TIMESTAMP: FieldNumber := 8
  const SEQUENCE_ID: FieldNumber := 10
  const TRACK_EVENT: FieldNumber := 11
  const INTERNED_DATA: FieldNumber := 12
  const SEQUENCE_FLAGS: FieldNumber := 13
  const TRACK_DESCRIPTOR: FieldNumber := 60

  const DESCRIPTOR_UUID: FieldNumber := 1
  const DESCRIPTOR_NAME: FieldNumber := 2
  const DESCRIPTOR_PARENT_UUID: FieldNumber := 5
  const DESCRIPTOR_MERGE_BEHAVIOR: FieldNumber := 15
  const DESCRIPTOR_MERGE_KEY: FieldNumber := 16

  const EVENT_CATEGORY_IIDS: FieldNumber := 3
  const EVENT_DEBUG_ANNOTATIONS: FieldNumber := 4
  const EVENT_TYPE: FieldNumber := 9
  const EVENT_NAME_IID: FieldNumber := 10
  const EVENT_TRACK_UUID: FieldNumber := 11

  const EVENT_CATEGORIES: FieldNumber := 1
  const EVENT_NAMES: FieldNumber := 2
  const DEBUG_ANNOTATION_NAMES: FieldNumber := 3
  const DEBUG_ANNOTATION_STRING_VALUES: FieldNumber := 29

  const STRING_IID: FieldNumber := 1
  const STRING_VALUE: FieldNumber := 2

  const ANNOTATION_NAME_IID: FieldNumber := 1
  const ANNOTATION_STRING_VALUE_IID: FieldNumber := 17

  // ---- What a trace tells ----

  /** One event, its strings in full. */
  datatype TraceEvent = TraceEvent(
    time: Word,
    kind: Word,
    track: Word,
    category: Option<Text>,
    name: Option<Text>,
    annotation: Option<(Text, Text)>,
    args: Fields)

  datatype Item =
    | Track(uuid: Word, parent: Option<Word>, name: Text, mergeKey: Option<Text>)
    | Event(event: TraceEvent)

  // ---- Interning ----

  /** Each string's id. */
  type Table = map<Text, Word>
  datatype Tables = Tables(categories: Table, names: Table, annotationNames: Table, annotationValues: Table)

  const NO_TABLES := Tables(map[], map[], map[], map[])

  /** The id of `value`: the one it has, or the next, counting from one in 64 bits. */
  function IdOf(table: Table, value: Text): Word {
    if value in table then table[value] else (|table| + 1) % TWO_TO_64
  }

  function Interned(table: Table, value: Text): Table {
    if value in table then table else table[value := IdOf(table, value)]
  }

  function InternedOption(table: Table, value: Option<Text>): Table {
    if value.Some? then Interned(table, value.value) else table
  }

  function IdOption(table: Table, value: Option<Text>): Option<Word> {
    if value.Some? then Some(IdOf(table, value.value)) else None
  }

  function InternedString(field: FieldNumber, iid: Word, value: Text): Field {
    Message(field, Cons(Uint(STRING_IID, iid), Cons(Bytes(STRING_VALUE, value), Nil)))
  }

  /** The declaration a string needs the first time it is used. */
  function Declaration(field: FieldNumber, table: Table, value: Option<Text>): Option<Field> {
    if value.Some? && value.value !in table
    then Some(InternedString(field, IdOf(table, value.value), value.value))
    else None
  }

  // ---- Packets ----

  /** `field`, if there is one, before `rest`. */
  function Opt(field: Option<Field>, rest: Fields): Fields {
    if field.Some? then Cons(field.value, rest) else rest
  }

  function OptUint(number: FieldNumber, value: Option<Word>, rest: Fields): Fields {
    Opt(if value.Some? then Some(Uint(number, value.value)) else None, rest)
  }

  /** The packet that declares the strings that are new, or none if none is. */
  function Declarations(first: Option<Field>, second: Option<Field>, flags: Option<Word>): seq<Fields> {
    if first.None? && second.None? then [] else
      [Cons(Uint(SEQUENCE_ID, PACKET_SEQUENCE_ID),
            OptUint(SEQUENCE_FLAGS, flags, Cons(Message(INTERNED_DATA, Opt(first, Opt(second, Nil))), Nil)))]
  }

  function AnnotationField(annotation: Option<(Word, Word)>): Option<Field> {
    if annotation.None? then None else
      Some(Message(EVENT_DEBUG_ANNOTATIONS,
                   Cons(Uint(ANNOTATION_NAME_IID, annotation.value.0),
                        Cons(Uint(ANNOTATION_STRING_VALUE_IID, annotation.value.1), Nil))))
  }

  /** The end of a slice has no arguments. */
  function ArgsField(kind: Word, args: Fields): Option<Field> {
    if kind == TYPE_SLICE_END then None else Some(Message(BUILDPROF_EXTENSION_FIELD, args))
  }

  function TrackEvent(kind: Word, track: Word, category: Option<Word>, name: Option<Word>,
                      annotation: Option<(Word, Word)>, args: Fields): Fields {
    Cons(Uint(EVENT_TYPE, kind),
         Cons(Uint(EVENT_TRACK_UUID, track),
              OptUint(EVENT_CATEGORY_IIDS, category,
                      OptUint(EVENT_NAME_IID, name, Opt(AnnotationField(annotation),
                                                        Opt(ArgsField(kind, args), Nil))))))
  }

  function EventPacket(time: Word, event: Fields): Fields {
    Cons(Uint(TIMESTAMP, time),
         Cons(Uint(SEQUENCE_ID, PACKET_SEQUENCE_ID),
              Cons(Uint(SEQUENCE_FLAGS, NEEDS_STATE), Cons(Message(TRACK_EVENT, event), Nil))))
  }

  function TrackDescriptor(uuid: Word, parent: Option<Word>, name: Text, mergeKey: Option<Text>): Fields {
    Cons(Uint(DESCRIPTOR_UUID, uuid),
         Cons(Bytes(DESCRIPTOR_NAME, name),
              OptUint(DESCRIPTOR_PARENT_UUID, parent,
                      OptUint(DESCRIPTOR_MERGE_BEHAVIOR, if mergeKey.Some? then Some(MERGE_BY_KEY) else None,
                              Opt(if mergeKey.Some? then Some(Bytes(DESCRIPTOR_MERGE_KEY, mergeKey.value)) else None,
                                  Nil)))))
  }

  /** The sequence's first packet also tells readers to forget any ids. */
  function TrackPacket(flags: Option<Word>, descriptor: Fields): Fields {
    Cons(Uint(SEQUENCE_ID, PACKET_SEQUENCE_ID),
         OptUint(SEQUENCE_FLAGS, flags, Cons(Message(TRACK_DESCRIPTOR, descriptor), Nil)))
  }

  /** "Build" */
  const ROOT_TRACK_NAME: Text := [66, 117, 105, 108, 100]
  const ROOT_TRACK := Track(ROOT_TRACK_UUID, None, ROOT_TRACK_NAME, None)

  function Preamble(): Fields {
    TrackPacket(Some(STATE_CLEARED), TrackDescriptor(ROOT_TRACK_UUID, None, ROOT_TRACK_NAME, None))
  }

  // ---- Writing ----

  datatype Trace = Trace(tables: Tables, packets: seq<Fields>)

  /** Writes an event whose annotation already has ids, declaring what of it is new. */
  function WriteEvent(w: Trace, time: Word, kind: Word, track: Word, category: Option<Text>, name: Option<Text>,
                      annotation: Option<(Word, Word)>, args: Fields): Trace {
    var t := w.tables;
    var event := TrackEvent(kind, track, IdOption(t.categories, category), IdOption(t.names, name), annotation, args);
    Trace(t.(categories := InternedOption(t.categories, category), names := InternedOption(t.names, name)),
           w.packets
           + Declarations(Declaration(EVENT_CATEGORIES, t.categories, category),
                          Declaration(EVENT_NAMES, t.names, name), Some(NEEDS_STATE))
           + [EventPacket(time, event)])
  }

  /** Declares what of an annotation is new. */
  function WriteAnnotation(w: Trace, name: Text, value: Text): Trace {
    var t := w.tables;
    Trace(t.(annotationNames := Interned(t.annotationNames, name),
             annotationValues := Interned(t.annotationValues, value)),
           w.packets
           + Declarations(Declaration(DEBUG_ANNOTATION_NAMES, t.annotationNames, Some(name)),
                          Declaration(DEBUG_ANNOTATION_STRING_VALUES, t.annotationValues, Some(value)), None))
  }

  function AnnotationIds(t: Tables, name: Text, value: Text): (Word, Word) {
    (IdOf(t.annotationNames, name), IdOf(t.annotationValues, value))
  }

  function WriteItem(w: Trace, item: Item): Trace {
    match item
    case Track(uuid, parent, name, mergeKey) =>
      w.(packets := w.packets + [TrackPacket(None, TrackDescriptor(uuid, parent, name, mergeKey))])
    case Event(e) =>
      if e.annotation.Some? then
        var (name, value) := e.annotation.value;
        WriteEvent(WriteAnnotation(w, name, value), e.time, e.kind, e.track, e.category, e.name,
                   Some(AnnotationIds(w.tables, name, value)), e.args)
      else
        WriteEvent(w, e.time, e.kind, e.track, e.category, e.name, None, e.args)
  }

  function WriteItems(w: Trace, items: seq<Item>): Trace {
    if items == [] then w else WriteItem(WriteItems(w, items[..|items| - 1]), items[|items| - 1])
  }

  /** A new trace: the root track, and no strings. (The attribute packets before it hold no ids.) */
  const NEW_TRACE := Trace(NO_TABLES, [Preamble()])

  /** The trace as one message of packets. */
  function TraceOf(packets: seq<Fields>): Fields {
    if packets == [] then Nil else Cons(Message(PACKET, packets[0]), TraceOf(packets[1..]))
  }

  function TraceBytes(packets: seq<Fields>): Text {
    MessageBytes(TraceOf(packets))
  }

  lemma {:induction false} TraceBytesConcat(a: seq<Fields>, b: seq<Fields>)
    ensures TraceBytes(a + b) == TraceBytes(a) + TraceBytes(b)
  {
    if a == [] {
      assert a + b == b;
    } else {
      TraceBytesConcat(a[1..], b);
      assert (a + b)[1..] == a[1..] + b;
      ConcatAssociates(FieldBytes(Message(PACKET, a[0])), TraceBytes(a[1..]), TraceBytes(b));
    }
  }

  // ---- What each call writes ----

  function ToWord(n: int): Word {
    n % TWO_TO_64
  }

  function ProcessTrack(pid: int): Word {
    pid % 0x1_0000_0000 * 4 + 1
  }

  function FileTrack(pid: int): Word {
    pid % 0x1_0000_0000 * 4 + 2
  }

  /** "Rust", "Clang", "LLD" */
  const RUST: Text := [82, 117, 115, 116]
  const CLANG: Text := [67, 108, 97, 110, 103]
  const LLD: Text := [76, 76, 68]

  function BackendDiscriminator(backend: Text): nat {
    if backend == RUST then 0 else if backend == CLANG then 1 else if backend == LLD then 2 else 3
  }

  function CompilerTrack(pid: int, thread: nat, backend: Text): Word {
    0x8000_0000_0000_0000 + pid % 0x1_0000_0000 * 0x8000_0000 + BackendDiscriminator(backend) * 0x2000_0000
    + thread % 0x2000_0000
  }

  /** "Processes", "File opens", "buildprof.processes", "buildprof.files" */
  const PROCESSES: Text := [80, 114, 111, 99, 101, 115, 115, 101, 115]
  const FILE_OPENS: Text := [70, 105, 108, 101, 32, 111, 112, 101, 110, 115]
  const PROCESS_MERGE_KEY: Text := [98, 117, 105, 108, 100, 112, 114, 111, 102, 46, 112, 114, 111, 99, 101, 115, 115,
                                    101, 115]
  const FILE_MERGE_KEY: Text := [98, 117, 105, 108, 100, 112, 114, 111, 102, 46, 102, 105, 108, 101, 115]
  /** "buildprof.process", "buildprof.file", "buildprof.rename", "buildprof.compiler" */
  const PROCESS_CATEGORY: Text := [98, 117, 105, 108, 100, 112, 114, 111, 102, 46, 112, 114, 111, 99, 101, 115, 115]
  const FILE_CATEGORY: Text := [98, 117, 105, 108, 100, 112, 114, 111, 102, 46, 102, 105, 108, 101]
  const RENAME_CATEGORY: Text := [98, 117, 105, 108, 100, 112, 114, 111, 102, 46, 114, 101, 110, 97, 109, 101]
  const COMPILER_CATEGORY: Text := [98, 117, 105, 108, 100, 112, 114, 111, 102, 46, 99, 111, 109, 112, 105, 108, 101,
                                    114]
  /** "open", "rename", "detail" */
  const OPEN_NAME: Text := [111, 112, 101, 110]
  const RENAME_NAME: Text := [114, 101, 110, 97, 109, 101]
  const DETAIL: Text := [100, 101, 116, 97, 105, 108]

  const COMMAND: FieldNumber := 1
  const CWD: FieldNumber := 2
  const PID: FieldNumber := 3
  const PARENT_PID: FieldNumber := 4
  const BUILD_PARENT_PID: FieldNumber := 5
  const EXECED: FieldNumber := 6
  const EXIT_CODE: FieldNumber := 7
  const PATH: FieldNumber := 8
  const FLAGS: FieldNumber := 9
  const FD: FieldNumber := 10
  const FROM: FieldNumber := 11
  const TO: FieldNumber := 12
  const OWNER_PID: FieldNumber := 13
  const BACKEND: FieldNumber := 14
  const BACKEND_CATEGORY: FieldNumber := 15
  const PATH_UNRESOLVED: FieldNumber := 16
  const COMPILER_WRAPPER: FieldNumber := 17

  function SegmentArgs(process: Process, segment: Segment): Fields {
    Cons(Bytes(COMMAND, segment.command),
    Cons(Bytes(CWD, segment.cwd),
    Cons(Uint(PID, ToWord(process.pid)),
    Cons(Uint(PARENT_PID, ToWord(process.parentPid)),
    Cons(Uint(BUILD_PARENT_PID, ToWord(process.buildParentPid)),
    Cons(Uint(EXECED, if process.execed then 1 else 0),
    OptUint(COMPILER_WRAPPER, if segment.compilerWrapper then Some(1) else None,
    OptUint(EXIT_CODE, if segment.exitCode.Some? then Some(ToWord(segment.exitCode.value)) else None, Nil))))))))
  }

  function OpenArgs(pid: int, path: Text, flags: nat, fd: int, unresolved: bool): Fields {
    Cons(Bytes(PATH, path),
    OptUint(PATH_UNRESOLVED, if unresolved then Some(1) else None,
    Cons(Uint(OWNER_PID, ToWord(pid)),
    Cons(Uint(FLAGS, ToWord(flags)),
    Cons(Uint(FD, ToWord(fd)), Nil)))))
  }

  function RenameArgs(pid: int, from: Text, to: Text): Fields {
    Cons(Bytes(FROM, from), Cons(Bytes(TO, to), Cons(Uint(OWNER_PID, ToWord(pid)), Nil)))
  }

  function SliceArgs(pid: int, backend: Text, category: Text): Fields {
    Cons(Uint(OWNER_PID, ToWord(pid)), Cons(Bytes(BACKEND, backend), Cons(Bytes(BACKEND_CATEGORY, category), Nil)))
  }

  function SliceEnd(time: Word, track: Word): Item {
    Event(TraceEvent(time, TYPE_SLICE_END, track, None, None, None, Nil))
  }

  function ProcessItems(pid: int): seq<Item> {
    [Track(ProcessTrack(pid), Some(ROOT_TRACK_UUID), PROCESSES, Some(PROCESS_MERGE_KEY)),
     Track(FileTrack(pid), Some(ROOT_TRACK_UUID), FILE_OPENS, Some(FILE_MERGE_KEY))]
  }

  function SegmentItems(process: Process, segment: Segment): seq<Item> {
    [Event(TraceEvent(ToWord(segment.start), TYPE_SLICE_BEGIN, ProcessTrack(process.pid), Some(PROCESS_CATEGORY),
                      Some(segment.name), None, SegmentArgs(process, segment))),
     SliceEnd(ToWord(EndAt(segment.start, segment.end)), ProcessTrack(process.pid))]
  }

  function OpenItems(pid: int, time: nat, path: Text, flags: nat, fd: int, unresolved: bool): seq<Item> {
    [Event(TraceEvent(ToWord(time), TYPE_INSTANT, FileTrack(pid), Some(FILE_CATEGORY), Some(OPEN_NAME), None,
                      OpenArgs(pid, path, flags, fd, unresolved)))]
  }

  function RenameItems(pid: int, time: nat, from: Text, to: Text): seq<Item> {
    [Event(TraceEvent(ToWord(time), TYPE_INSTANT, FileTrack(pid), Some(RENAME_CATEGORY), Some(RENAME_NAME), None,
                      RenameArgs(pid, from, to)))]
  }

  function SliceItems(pid: int, thread: nat, backend: Text, category: Text, name: Text, start: Word, duration: Word,
                      detail: Option<Text>): seq<Item> {
    var track := CompilerTrack(pid, thread, backend);
    [Event(TraceEvent(start, TYPE_SLICE_BEGIN, track, Some(COMPILER_CATEGORY), Some(name),
                      if detail.Some? then Some((DETAIL, detail.value)) else None, SliceArgs(pid, backend, category))),
     SliceEnd(Min(start + duration, MAX_NS), track)]
  }

  /** What the tracker's sink has the trace say of each record. (An exit only prompts a search for profiles.) */
  function RecordItems(w: Written): seq<Item> {
    match w
    case ProcessStarted(pid) => ProcessItems(pid)
    case SegmentEnded(process, segment) => SegmentItems(process, segment)
    case FileOpened(pid, time, path, flags, fd, unresolved) => OpenItems(pid, time, path, flags, fd, unresolved)
    case FileRenamed(pid, time, from, to) => RenameItems(pid, time, from, to)
    case ProcessExited(_, _) => []
  }

  function AllItems(sink: seq<Written>): seq<Item> {
    if sink == [] then [] else AllItems(sink[..|sink| - 1]) + RecordItems(sink[|sink| - 1])
  }
}
