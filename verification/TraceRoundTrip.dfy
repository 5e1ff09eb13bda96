/** From what the tracker recorded to bytes and back: a reader of the file's bytes recovers the records. */
module TraceRoundTrip {
  import opened Basics
  import opened Wire
  import opened TraceWriter
  import opened TraceReader
  import opened TrackerModel
  import TraceObject

  // ---- Bytes ----

  const PLAIN := Schema(map[])
  const EVENT_SCHEMA := Schema(map[EVENT_DEBUG_ANNOTATIONS := PLAIN, BUILDPROF_EXTENSION_FIELD := PLAIN])
  const DATA_SCHEMA := Schema(map[EVENT_CATEGORIES := PLAIN, EVENT_NAMES := PLAIN, DEBUG_ANNOTATION_NAMES := PLAIN,
                                  DEBUG_ANNOTATION_STRING_VALUES := PLAIN])
  const PACKET_SCHEMA := Schema(map[TRACK_EVENT := EVENT_SCHEMA, INTERNED_DATA := DATA_SCHEMA,
                                    TRACK_DESCRIPTOR := PLAIN])
  const TRACE_SCHEMA := Schema(map[PACKET := PACKET_SCHEMA])

  function PacketsOf(trace: Fields): seq<Fields>
    decreases trace
  {
    match trace
    case Nil => []
    case Cons(first, rest) =>
      (if first.Message? && first.number == PACKET then [first.content] else []) + PacketsOf(rest)
  }

  /** Reads a whole trace from its bytes. */
  function ReadTrace(bytes: Text): Option<seq<Item>> {
    match Parse(bytes, TRACE_SCHEMA)
    case None => None
    case Some(trace) =>
      match ReadPackets(PacketsOf(trace))
      case None => None
      case Some(read) => Some(read.items)
  }

  lemma ConformsOpt(field: Option<Field>, rest: Fields, schema: Schema)
    ensures Conforms(Opt(field, rest), schema)
         == ((field.Some? ==> FieldConforms(field.value, schema)) && Conforms(rest, schema))
  {
  }

  lemma ConformsCons(first: Field, rest: Fields, schema: Schema)
    ensures Conforms(Cons(first, rest), schema) == (FieldConforms(first, schema) && Conforms(rest, schema))
    ensures Conforms(Nil, schema)
  {
  }

  lemma {:induction false} TraceConforms(packets: seq<Fields>)
    requires forall i | 0 <= i < |packets| :: Conforms(packets[i], PACKET_SCHEMA)
    ensures Conforms(TraceOf(packets), TRACE_SCHEMA) && PacketsOf(TraceOf(packets)) == packets
  {
    if packets != [] {
      TraceConforms(packets[1..]);
    }
  }

  lemma {:induction false} TraceSmall(packets: seq<Fields>)
    requires TraceObject.Fits(packets)
    ensures Small(TraceOf(packets))
  {
    hide SmallField;
    if packets != [] {
      TraceSmall(packets[1..]);
    }
  }

  lemma EventConforms(kind: Word, track: Word, category: Option<Word>, name: Option<Word>,
                      annotation: Option<(Word, Word)>, args: Fields)
    requires Conforms(args, PLAIN)
    ensures Conforms(TrackEvent(kind, track, category, name, annotation, args), EVENT_SCHEMA)
  {
    hide Conforms;
    var f1 := Opt(ArgsField(kind, args), Nil);
    var f2 := Opt(AnnotationField(annotation), f1);
    var f3 := OptUint(EVENT_NAME_IID, name, f2);
    var f4 := OptUint(EVENT_CATEGORY_IIDS, category, f3);
    ConformsCons(Uint(EVENT_TRACK_UUID, track), f4, EVENT_SCHEMA);
    ConformsCons(Uint(EVENT_TYPE, kind), Cons(Uint(EVENT_TRACK_UUID, track), f4), EVENT_SCHEMA);
    ConformsOpt(if category.Some? then Some(Uint(EVENT_CATEGORY_IIDS, category.value)) else None, f3, EVENT_SCHEMA);
    ConformsOpt(if name.Some? then Some(Uint(EVENT_NAME_IID, name.value)) else None, f2, EVENT_SCHEMA);
    ConformsOpt(AnnotationField(annotation), f1, EVENT_SCHEMA);
    ConformsOpt(ArgsField(kind, args), Nil, EVENT_SCHEMA);
    if annotation.Some? {
      var value := Cons(Uint(ANNOTATION_STRING_VALUE_IID, annotation.value.1), Nil);
      ConformsCons(Uint(ANNOTATION_STRING_VALUE_IID, annotation.value.1), Nil, PLAIN);
      ConformsCons(Uint(ANNOTATION_NAME_IID, annotation.value.0), value, PLAIN);
    }
  }

  lemma EventPacketConforms(time: Word, event: Fields)
    requires Conforms(event, EVENT_SCHEMA)
    ensures Conforms(EventPacket(time, event), PACKET_SCHEMA)
  {
    hide Conforms;
    var f1 := Cons(Message(TRACK_EVENT, event), Nil);
    var f2 := Cons(Uint(SEQUENCE_FLAGS, NEEDS_STATE), f1);
    ConformsCons(Message(TRACK_EVENT, event), Nil, PACKET_SCHEMA);
    ConformsCons(Uint(SEQUENCE_FLAGS, NEEDS_STATE), f1, PACKET_SCHEMA);
    ConformsCons(Uint(SEQUENCE_ID, PACKET_SEQUENCE_ID), f2, PACKET_SCHEMA);
    ConformsCons(Uint(TIMESTAMP, time), Cons(Uint(SEQUENCE_ID, PACKET_SEQUENCE_ID), f2), PACKET_SCHEMA);
  }

  lemma TrackPacketConforms(flags: Option<Word>, uuid: Word, parent: Option<Word>, name: Text, mergeKey: Option<Text>)
    ensures Conforms(TrackPacket(flags, TrackDescriptor(uuid, parent, name, mergeKey)), PACKET_SCHEMA)
  {
    hide Conforms;
    var key := if mergeKey.Some? then Some(Bytes(DESCRIPTOR_MERGE_KEY, mergeKey.value)) else None;
    var behavior := if mergeKey.Some? then Some(MERGE_BY_KEY) else None;
    var f1 := Opt(key, Nil);
    var f2 := OptUint(DESCRIPTOR_MERGE_BEHAVIOR, behavior, f1);
    var f3 := OptUint(DESCRIPTOR_PARENT_UUID, parent, f2);
    ConformsCons(Bytes(DESCRIPTOR_NAME, name), f3, PLAIN);
    ConformsCons(Uint(DESCRIPTOR_UUID, uuid), Cons(Bytes(DESCRIPTOR_NAME, name), f3), PLAIN);
    ConformsOpt(if parent.Some? then Some(Uint(DESCRIPTOR_PARENT_UUID, parent.value)) else None, f2, PLAIN);
    ConformsOpt(if behavior.Some? then Some(Uint(DESCRIPTOR_MERGE_BEHAVIOR, behavior.value)) else None, f1, PLAIN);
    ConformsOpt(key, Nil, PLAIN);
    var track := Cons(Message(TRACK_DESCRIPTOR, TrackDescriptor(uuid, parent, name, mergeKey)), Nil);
    ConformsCons(track.first, Nil, PACKET_SCHEMA);
    ConformsOpt(if flags.Some? then Some(Uint(SEQUENCE_FLAGS, flags.value)) else None, track, PACKET_SCHEMA);
    ConformsCons(Uint(SEQUENCE_ID, PACKET_SEQUENCE_ID), OptUint(SEQUENCE_FLAGS, flags, track), PACKET_SCHEMA);
  }

  lemma DeclarationsConform(first: Option<Field>, second: Option<Field>, flags: Option<Word>)
    requires first.Some? ==> FieldConforms(first.value, DATA_SCHEMA)
    requires second.Some? ==> FieldConforms(second.value, DATA_SCHEMA)
    ensures forall p | p in Declarations(first, second, flags) :: Conforms(p, PACKET_SCHEMA)
  {
    hide Conforms;
    ConformsOpt(second, Nil, DATA_SCHEMA);
    ConformsOpt(first, Opt(second, Nil), DATA_SCHEMA);
    ConformsCons(Uint(0, 0), Nil, DATA_SCHEMA);
    var data := Cons(Message(INTERNED_DATA, Opt(first, Opt(second, Nil))), Nil);
    ConformsCons(data.first, Nil, PACKET_SCHEMA);
    ConformsOpt(if flags.Some? then Some(Uint(SEQUENCE_FLAGS, flags.value)) else None, data, PACKET_SCHEMA);
    ConformsCons(Uint(SEQUENCE_ID, PACKET_SEQUENCE_ID), OptUint(SEQUENCE_FLAGS, flags, data), PACKET_SCHEMA);
  }

  lemma DeclarationConforms(field: FieldNumber, table: Table, value: Option<Text>)
    requires field in DATA_SCHEMA.messages
    ensures Declaration(field, table, value).Some? ==> FieldConforms(Declaration(field, table, value).value,
                                                                     DATA_SCHEMA)
  {
    if value.Some? {
      var iid := IdOf(table, value.value);
      ConformsCons(Bytes(STRING_VALUE, value.value), Nil, PLAIN);
      ConformsCons(Uint(STRING_IID, iid), Cons(Bytes(STRING_VALUE, value.value), Nil), PLAIN);
    }
  }

  predicate Conforming(packets: seq<Fields>) {
    forall i | 0 <= i < |packets| :: Conforms(packets[i], PACKET_SCHEMA)
  }

  lemma ConformingMore(packets: seq<Fields>, more: seq<Fields>)
    requires Conforming(packets) && forall p | p in more :: Conforms(p, PACKET_SCHEMA)
    ensures Conforming(packets + more)
  {
    hide Conforms;
    forall i | 0 <= i < |packets + more| ensures Conforms((packets + more)[i], PACKET_SCHEMA) {
      if i >= |packets| {
        assert more[i - |packets|] in more;
      }
    }
  }

  /** An item whose arguments are scalars, as every one written is. */
  predicate Scalar(item: Item) {
    item.Event? ==> Conforms(item.event.args, PLAIN)
  }

  lemma WriteEventConforms(w: Trace, time: Word, kind: Word, track: Word, category: Option<Text>, name: Option<Text>,
                           annotation: Option<(Word, Word)>, args: Fields)
    requires Conforming(w.packets) && Conforms(args, PLAIN)
    ensures Conforming(WriteEvent(w, time, kind, track, category, name, annotation, args).packets)
  {
    hide Conforms, Conforming, TrackEvent, EventPacket, Declaration, Declarations, FieldConforms;
    var t := w.tables;
    var first, second := Declaration(EVENT_CATEGORIES, t.categories, category), Declaration(EVENT_NAMES, t.names, name);
    DeclarationConforms(EVENT_CATEGORIES, t.categories, category);
    DeclarationConforms(EVENT_NAMES, t.names, name);
    DeclarationsConform(first, second, Some(NEEDS_STATE));
    ConformingMore(w.packets, Declarations(first, second, Some(NEEDS_STATE)));
    var event := TrackEvent(kind, track, IdOption(t.categories, category), IdOption(t.names, name), annotation, args);
    EventConforms(kind, track, IdOption(t.categories, category), IdOption(t.names, name), annotation, args);
    EventPacketConforms(time, event);
    ConformingMore(w.packets + Declarations(first, second, Some(NEEDS_STATE)), [EventPacket(time, event)]);
  }

  lemma WriteItemConforms(w: Trace, item: Item)
    requires Conforming(w.packets) && Scalar(item)
    ensures Conforming(WriteItem(w, item).packets)
  {
    hide Conforms, Conforming, WriteEvent, TrackPacket, TrackDescriptor, Declaration, Declarations, FieldConforms;
    match item {
      case Track(uuid, parent, name, mergeKey) =>
        TrackPacketConforms(None, uuid, parent, name, mergeKey);
        ConformingMore(w.packets, [TrackPacket(None, TrackDescriptor(uuid, parent, name, mergeKey))]);
      case Event(e) =>
        if e.annotation.Some? {
          var (name, value) := e.annotation.value;
          var t := w.tables;
          DeclarationConforms(DEBUG_ANNOTATION_NAMES, t.annotationNames, Some(name));
          DeclarationConforms(DEBUG_ANNOTATION_STRING_VALUES, t.annotationValues, Some(value));
          var first := Declaration(DEBUG_ANNOTATION_NAMES, t.annotationNames, Some(name));
          var second := Declaration(DEBUG_ANNOTATION_STRING_VALUES, t.annotationValues, Some(value));
          DeclarationsConform(first, second, None);
          ConformingMore(w.packets, Declarations(first, second, None));
          WriteEventConforms(WriteAnnotation(w, name, value), e.time, e.kind, e.track, e.category, e.name,
                             Some(AnnotationIds(t, name, value)), e.args);
        } else {
          WriteEventConforms(w, e.time, e.kind, e.track, e.category, e.name, None, e.args);
        }
    }
  }

  lemma {:induction false} ItemsConform(items: seq<Item>)
    requires forall i | 0 <= i < |items| :: Scalar(items[i])
    ensures Conforming(WriteItems(NEW_TRACE, items).packets)
  {
    hide WriteItem, Scalar;
    if items == [] {
      TrackPacketConforms(Some(STATE_CLEARED), ROOT_TRACK_UUID, None, ROOT_TRACK_NAME, None);
    } else {
      var n := |items| - 1;
      ItemsConform(items[..n]);
      WriteItemConforms(WriteItems(NEW_TRACE, items[..n]), items[n]);
    }
  }

  /** Parsing the bytes of a trace gives its packets, and reading those gives every item in full. */
  lemma BytesTellItems(items: seq<Item>)
    requires 2 * |items| < TWO_TO_64 - 4 && forall i | 0 <= i < |items| :: Scalar(items[i])
    requires TraceObject.Fits(WriteItems(NEW_TRACE, items).packets)
    ensures ReadTrace(TraceBytes(WriteItems(NEW_TRACE, items).packets)) == Some([ROOT_TRACK] + AllShown(items))
  {
    hide WriteItems, Parse, ReadPackets, PacketsOf, TraceOf, Conforms, Small, SmallField, MessageBytes;
    var packets := WriteItems(NEW_TRACE, items).packets;
    ItemsConform(items);
    TraceConforms(packets);
    TraceSmall(packets);
    WireRoundTrip(TraceOf(packets), TRACE_SCHEMA);
    ItemsAreTold(items);
  }

  // ---- What the items say ----

  function AsPid(word: Option<Word>): int {
    if word.Some? then AsI32(word.value) else 0
  }

  function TextAt(args: Fields, number: FieldNumber): Text {
    if BytesAt(args, number).Some? then BytesAt(args, number).value else []
  }

  /** A segment, read from the events of its start and its end. */
  function ReadSegment(begin: TraceEvent, end: TraceEvent): (Process, Segment) {
    var args := begin.args;
    (Process(AsPid(UintAt(args, PID)), AsPid(UintAt(args, PARENT_PID)), AsPid(UintAt(args, BUILD_PARENT_PID)),
             UintAt(args, EXECED) == Some(1)),
     Segment(begin.time, end.time, if begin.name.Some? then begin.name.value else [], TextAt(args, COMMAND),
             TextAt(args, CWD),
             UintAt(args, EXIT_CODE), UintAt(args, COMPILER_WRAPPER) == Some(1)))
  }

  lemma PidReadsBack(n: int)
    requires IsI32(n)
    ensures AsI32(ToWord(n)) == n
  {
  }

  lemma WordReadsBack(n: nat)
    requires n < TWO_TO_64
    ensures ToWord(n) == n
  {
  }

  lemma SegmentArgsFound(process: Process, segment: Segment)
    ensures var a := SegmentArgs(process, segment);
            && BytesAt(a, COMMAND) == Some(segment.command) && BytesAt(a, CWD) == Some(segment.cwd)
            && UintAt(a, PID) == Some(ToWord(process.pid)) && UintAt(a, PARENT_PID) == Some(ToWord(process.parentPid))
            && UintAt(a, BUILD_PARENT_PID) == Some(ToWord(process.buildParentPid))
            && UintAt(a, EXECED) == Some(if process.execed then 1 else 0)
            && UintAt(a, COMPILER_WRAPPER) == (if segment.compilerWrapper then Some(1) else None)
            && UintAt(a, EXIT_CODE) == (if segment.exitCode.Some? then Some(ToWord(segment.exitCode.value)) else None)
  {
    hide Find, ToWord;
    var code := if segment.exitCode.Some? then Some(ToWord(segment.exitCode.value)) else None;
    var wrapper := if segment.compilerWrapper then Some(1) else None;
    var f1 := OptUint(EXIT_CODE, code, Nil);
    var f2 := OptUint(COMPILER_WRAPPER, wrapper, f1);
    var f3 := Cons(Uint(EXECED, if process.execed then 1 else 0), f2);
    var f4 := Cons(Uint(BUILD_PARENT_PID, ToWord(process.buildParentPid)), f3);
    var f5 := Cons(Uint(PARENT_PID, ToWord(process.parentPid)), f4);
    var f6 := Cons(Uint(PID, ToWord(process.pid)), f5);
    var f7 := Cons(Bytes(CWD, segment.cwd), f6);
    FindNil();
    FindOpt(if code.Some? then Some(Uint(EXIT_CODE, code.value)) else None, Nil);
    FindOpt(if wrapper.Some? then Some(Uint(COMPILER_WRAPPER, wrapper.value)) else None, f1);
    FindCons(f3.first, f2);
    FindCons(f4.first, f3);
    FindCons(f5.first, f4);
    FindCons(f6.first, f5);
    FindCons(f7.first, f6);
    FindCons(Bytes(COMMAND, segment.command), f7);
  }

  /**
   The two items of a segment say all of it: its process and parents, what it ran, where and how it
   ended, and from when to when. One of no length is given the shortest there is.
   */
  lemma SegmentReadsBack(process: Process, segment: Segment)
    requires IsI32(process.pid) && IsI32(process.parentPid) && IsI32(process.buildParentPid)
    requires segment.start <= MAX_NS && segment.end <= MAX_NS
    requires segment.exitCode.Some? ==> segment.exitCode.value < TWO_TO_64
    ensures var items := AllShown(SegmentItems(process, segment));
            |items| == 2 && items[0].Event? && items[1].Event?
            && ReadSegment(items[0].event, items[1].event) == (process,
                                                               segment.(end := EndAt(segment.start, segment.end)))
            && items[0].event.track == items[1].event.track == ProcessTrack(process.pid)
  {
    hide SegmentArgs, Find, AsI32, ToWord;
    var items := SegmentItems(process, segment);
    assert items[..1] == [items[0]] && items[..1][..0] == [];
    assert AllShown(items[..1]) == [Shown(items[0])];
    SegmentArgsFound(process, segment);
    PidReadsBack(process.pid);
    PidReadsBack(process.parentPid);
    PidReadsBack(process.buildParentPid);
    WordReadsBack(segment.start);
    WordReadsBack(EndAt(segment.start, segment.end));
    if segment.exitCode.Some? {
      WordReadsBack(segment.exitCode.value);
    }
  }

  function ReadOpen(e: TraceEvent): Written {
    FileOpened(AsPid(UintAt(e.args, OWNER_PID)), e.time, TextAt(e.args, PATH),
               if UintAt(e.args, FLAGS).Some? then UintAt(e.args, FLAGS).value else 0,
               AsPid(UintAt(e.args, FD)), UintAt(e.args, PATH_UNRESOLVED) == Some(1))
  }

  function ReadRename(e: TraceEvent): Written {
    FileRenamed(AsPid(UintAt(e.args, OWNER_PID)), e.time, TextAt(e.args, FROM), TextAt(e.args, TO))
  }

  lemma OpenReadsBack(pid: int, time: nat, path: Text, flags: nat, fd: int, unresolved: bool)
    requires IsI32(pid) && IsI32(fd) && time <= MAX_NS && flags < TWO_TO_64
    ensures var items := OpenItems(pid, time, path, flags, fd, unresolved);
            |items| == 1 && items[0].Event?
            && ReadOpen(items[0].event) == FileOpened(pid, time, path, flags, fd, unresolved)
            && items[0].event.track == FileTrack(pid)
  {
    hide Find, AsI32, ToWord;
    var f1 := Cons(Uint(FD, ToWord(fd)), Nil);
    var f2 := Cons(Uint(FLAGS, ToWord(flags)), f1);
    var f3 := Cons(Uint(OWNER_PID, ToWord(pid)), f2);
    var mark := if unresolved then Some(1) else None;
    FindNil();
    FindCons(f1.first, Nil);
    FindCons(f2.first, f1);
    FindCons(f3.first, f2);
    FindOpt(if mark.Some? then Some(Uint(PATH_UNRESOLVED, mark.value)) else None, f3);
    FindCons(Bytes(PATH, path), OptUint(PATH_UNRESOLVED, mark, f3));
    PidReadsBack(pid);
    PidReadsBack(fd);
    WordReadsBack(time);
    WordReadsBack(flags);
  }

  lemma RenameReadsBack(pid: int, time: nat, from: Text, to: Text)
    requires IsI32(pid) && time <= MAX_NS
    ensures var items := RenameItems(pid, time, from, to);
            |items| == 1 && items[0].Event? && ReadRename(items[0].event) == FileRenamed(pid, time, from, to)
            && items[0].event.track == FileTrack(pid)
  {
    hide Find, AsI32, ToWord;
    var f1 := Cons(Uint(OWNER_PID, ToWord(pid)), Nil);
    var f2 := Cons(Bytes(TO, to), f1);
    FindNil();
    FindCons(f1.first, Nil);
    FindCons(f2.first, f1);
    FindCons(Bytes(FROM, from), f2);
    PidReadsBack(pid);
    WordReadsBack(time);
  }

  /** What a compiler's slice says: whose it is, what the compiler did, from when to when, and more on it. */
  datatype Slice = Slice(
    pid: int,
    track: Word,
    backend: Text,
    category: Text,
    name: Text,
    start: Word,
    end: Word,
    detail: Option<Text>)

  function ReadSlice(begin: TraceEvent, end: TraceEvent): Slice {
    Slice(AsPid(UintAt(begin.args, OWNER_PID)), begin.track, TextAt(begin.args, BACKEND),
          TextAt(begin.args, BACKEND_CATEGORY), if begin.name.Some? then begin.name.value else [], begin.time, end.time,
          if begin.annotation.Some? && begin.annotation.value.0 == DETAIL then Some(begin.annotation.value.1) else None)
  }

  /** The two items of a compiler's slice say all of it; an end past what 64 bits hold is the greatest there is. */
  lemma SliceReadsBack(pid: int, thread: nat, backend: Text, category: Text, name: Text, start: Word, duration: Word,
                       detail: Option<Text>)
    requires IsI32(pid)
    ensures var items := AllShown(SliceItems(pid, thread, backend, category, name, start, duration, detail));
            var end := if start + duration > MAX_NS then MAX_NS else start + duration;
            && |items| == 2 && items[0].Event? && items[1].Event?
            && items[0].event.kind == TYPE_SLICE_BEGIN && items[1].event.kind == TYPE_SLICE_END
            && items[0].event.category == Some(COMPILER_CATEGORY)
            && ReadSlice(items[0].event, items[1].event)
               == Slice(pid, CompilerTrack(pid, thread, backend), backend, category, name, start, end, detail)
            && items[1].event.track == items[0].event.track
  {
    hide Find, AsI32, ToWord, CompilerTrack;
    var items := SliceItems(pid, thread, backend, category, name, start, duration, detail);
    assert items[..1] == [items[0]] && items[..1][..0] == [];
    assert AllShown(items[..1]) == [Shown(items[0])];
    var f1 := Cons(Bytes(BACKEND_CATEGORY, category), Nil);
    var f2 := Cons(Bytes(BACKEND, backend), f1);
    FindNil();
    FindCons(f1.first, Nil);
    FindCons(f2.first, f1);
    FindCons(Uint(OWNER_PID, ToWord(pid)), f2);
    PidReadsBack(pid);
  }

  // ---- The tracker's trace ----

  lemma {:induction false} RecordsAreScalar(sink: seq<Written>)
    ensures forall i | 0 <= i < |AllItems(sink)| :: Scalar(AllItems(sink)[i])
    ensures |AllItems(sink)| <= 2 * |sink|
  {
    hide Scalar;
    if sink != [] {
      var n := |sink| - 1;
      RecordsAreScalar(sink[..n]);
      RecordIsScalar(sink[n]);
    }
  }

  lemma RecordIsScalar(w: Written)
    ensures forall i | 0 <= i < |RecordItems(w)| :: Scalar(RecordItems(w)[i])
  {
    match w {
      case ProcessStarted(_) =>
      case ProcessExited(_, _) =>
      case SegmentEnded(process, segment) =>
        SegmentArgsScalar(process, segment);
      case FileOpened(pid, time, path, flags, fd, unresolved) =>
        OpenArgsScalar(pid, path, flags, fd, unresolved);
      case FileRenamed(pid, time, from, to) =>
        RenameArgsScalar(pid, from, to);
    }
  }

  lemma SegmentArgsScalar(process: Process, segment: Segment)
    ensures Conforms(SegmentArgs(process, segment), PLAIN)
  {
    hide Conforms, ToWord;
    var code := if segment.exitCode.Some? then Some(ToWord(segment.exitCode.value)) else None;
    var wrapper := if segment.compilerWrapper then Some(1) else None;
    var f1 := OptUint(EXIT_CODE, code, Nil);
    var f2 := OptUint(COMPILER_WRAPPER, wrapper, f1);
    var f3 := Cons(Uint(EXECED, if process.execed then 1 else 0), f2);
    var f4 := Cons(Uint(BUILD_PARENT_PID, ToWord(process.buildParentPid)), f3);
    var f5 := Cons(Uint(PARENT_PID, ToWord(process.parentPid)), f4);
    var f6 := Cons(Uint(PID, ToWord(process.pid)), f5);
    var f7 := Cons(Bytes(CWD, segment.cwd), f6);
    ConformsOpt(if code.Some? then Some(Uint(EXIT_CODE, code.value)) else None, Nil, PLAIN);
    ConformsOpt(if wrapper.Some? then Some(Uint(COMPILER_WRAPPER, wrapper.value)) else None, f1, PLAIN);
    ConformsCons(f3.first, f2, PLAIN);
    ConformsCons(f4.first, f3, PLAIN);
    ConformsCons(f5.first, f4, PLAIN);
    ConformsCons(f6.first, f5, PLAIN);
    ConformsCons(f7.first, f6, PLAIN);
    ConformsCons(Bytes(COMMAND, segment.command), f7, PLAIN);
  }

  lemma OpenArgsScalar(pid: int, path: Text, flags: nat, fd: int, unresolved: bool)
    ensures Conforms(OpenArgs(pid, path, flags, fd, unresolved), PLAIN)
  {
    hide Conforms, ToWord;
    var f1 := Cons(Uint(FD, ToWord(fd)), Nil);
    var f2 := Cons(Uint(FLAGS, ToWord(flags)), f1);
    var f3 := Cons(Uint(OWNER_PID, ToWord(pid)), f2);
    var mark := if unresolved then Some(1) else None;
    ConformsCons(f1.first, Nil, PLAIN);
    ConformsCons(f2.first, f1, PLAIN);
    ConformsCons(f3.first, f2, PLAIN);
    ConformsOpt(if mark.Some? then Some(Uint(PATH_UNRESOLVED, mark.value)) else None, f3, PLAIN);
    ConformsCons(Bytes(PATH, path), OptUint(PATH_UNRESOLVED, mark, f3), PLAIN);
  }

  lemma RenameArgsScalar(pid: int, from: Text, to: Text)
    ensures Conforms(RenameArgs(pid, from, to), PLAIN)
  {
    hide ToWord;
    var f1 := Cons(Uint(OWNER_PID, ToWord(pid)), Nil);
    ConformsCons(f1.first, Nil, PLAIN);
    ConformsCons(Bytes(TO, to), f1, PLAIN);
  }

  // ---- Records, read from the items ----

  /** A record whose numbers fit the fields they are written in. */
  predicate Readable(w: Written) {
    match w
    case ProcessStarted(pid) => IsI32(pid)
    case SegmentEnded(process, segment) =>
      && IsI32(process.pid) && IsI32(process.parentPid) && IsI32(process.buildParentPid)
      && segment.start <= MAX_NS && segment.end <= MAX_NS
      && (segment.exitCode.Some? ==> segment.exitCode.value < TWO_TO_64)
    case FileOpened(pid, time, _, flags, fd, _) => IsI32(pid) && IsI32(fd) && time <= MAX_NS && flags < TWO_TO_64
    case FileRenamed(pid, time, _, _) => IsI32(pid) && time <= MAX_NS
    case ProcessExited(_, _) => true
  }

  /** What a reader finds of a record: all of it, a segment lengthened, an exit report not at all. */
  function AsRead(w: Written): seq<Written> {
    match w
    case SegmentEnded(process, segment) =>
      [SegmentEnded(process, segment.(end := EndAt(segment.start, segment.end)))]
    case ProcessExited(_, _) => []
    case _ => [w]
  }

  function AllAsRead(sink: seq<Written>): seq<Written> {
    if sink == [] then [] else AllAsRead(sink[..|sink| - 1]) + AsRead(sink[|sink| - 1])
  }

  /** Whether the slice that starts with `begin` is the segment that `end` ends. */
  predicate IsSegment(begin: Item, end: TraceEvent) {
    && begin.Event? && begin.event.kind == TYPE_SLICE_BEGIN && end.kind == TYPE_SLICE_END
    && begin.event.category == Some(PROCESS_CATEGORY) && begin.event.track == end.track
  }

  /** The record that the last of the items completes, if it completes one. */
  function LastRecord(items: seq<Item>): seq<Written>
    requires items != []
  {
    var n := |items|;
    match items[n - 1]
    case Track(uuid, _, _, mergeKey) =>
      if mergeKey == Some(PROCESS_MERGE_KEY) then [ProcessStarted(AsI32(uuid / 4))] else []
    case Event(e) =>
      if n >= 2 && IsSegment(items[n - 2], e) then
        var (process, segment) := ReadSegment(items[n - 2].event, e);
        [SegmentEnded(process, segment)]
      else if e.kind == TYPE_INSTANT && e.category == Some(FILE_CATEGORY) then [ReadOpen(e)]
      else if e.kind == TYPE_INSTANT && e.category == Some(RENAME_CATEGORY) then [ReadRename(e)]
      else []
  }

  /** The records that a reader of the items finds. */
  function RecordsRead(items: seq<Item>): seq<Written> {
    if items == [] then [] else RecordsRead(items[..|items| - 1]) + LastRecord(items)
  }

  lemma ReadMore(items: seq<Item>, item: Item)
    ensures RecordsRead(items + [item]) == RecordsRead(items) + LastRecord(items + [item])
  {
    hide LastRecord;
    assert (items + [item])[..|items|] == items;
  }

  lemma {:induction false} ShownConcat(a: seq<Item>, b: seq<Item>)
    ensures AllShown(a + b) == AllShown(a) + AllShown(b)
  {
    hide Shown;
    if b == [] {
      assert a + b == a;
    } else {
      ShownConcat(a, b[..|b| - 1]);
      assert (a + b)[..|a + b| - 1] == a + b[..|b| - 1];
    }
  }

  lemma OneShown(items: seq<Item>)
    requires |items| == 1
    ensures AllShown(items) == [Shown(items[0])]
  {
    assert items[..0] == [];
  }

  lemma TwoShown(items: seq<Item>)
    requires |items| == 2
    ensures AllShown(items) == [Shown(items[0]), Shown(items[1])]
  {
    OneShown(items[..1]);
  }

  lemma TrackTellsPid(pid: int)
    requires IsI32(pid)
    ensures AsI32(ProcessTrack(pid) / 4) == pid
  {
  }

  lemma StartReadsBack(items: seq<Item>, pid: int)
    requires IsI32(pid)
    ensures RecordsRead(items + AllShown(ProcessItems(pid))) == RecordsRead(items) + [ProcessStarted(pid)]
  {
    hide RecordsRead, AllShown, AsI32, ProcessTrack, FileTrack;
    TrackTellsPid(pid);
    var shown := AllShown(ProcessItems(pid));
    TwoShown(ProcessItems(pid));
    ReadMore(items, shown[0]);
    ReadMore(items + [shown[0]], shown[1]);
    assert items + shown == items + [shown[0]] + [shown[1]];
  }

  lemma SegmentIsRead(items: seq<Item>, process: Process, segment: Segment)
    requires Readable(SegmentEnded(process, segment))
    ensures RecordsRead(items + AllShown(SegmentItems(process, segment)))
         == RecordsRead(items) + [SegmentEnded(process, segment.(end := EndAt(segment.start, segment.end)))]
  {
    hide RecordsRead, AllShown, ReadSegment, SegmentArgs, ToWord;
    var shown := AllShown(SegmentItems(process, segment));
    TwoShown(SegmentItems(process, segment));
    SegmentReadsBack(process, segment);
    ReadMore(items, shown[0]);
    ReadMore(items + [shown[0]], shown[1]);
    assert items + shown == items + [shown[0]] + [shown[1]];
  }

  lemma FileIsRead(items: seq<Item>, w: Written)
    requires Readable(w) && (w.FileOpened? || w.FileRenamed?)
    ensures RecordsRead(items + AllShown(RecordItems(w))) == RecordsRead(items) + [w]
  {
    hide RecordsRead, AllShown, ReadOpen, ReadRename, OpenArgs, RenameArgs, ToWord;
    var shown := AllShown(RecordItems(w));
    OneShown(RecordItems(w));
    ReadMore(items, shown[0]);
    match w {
      case FileOpened(pid, time, path, flags, fd, unresolved) =>
        OpenReadsBack(pid, time, path, flags, fd, unresolved);
      case FileRenamed(pid, time, from, to) =>
        RenameReadsBack(pid, time, from, to);
    }
  }

  /** One record more, read back from the items it adds. */
  lemma OneMoreRead(items: seq<Item>, w: Written)
    requires Readable(w)
    ensures RecordsRead(items + AllShown(RecordItems(w))) == RecordsRead(items) + AsRead(w)
  {
    hide RecordsRead, ProcessItems, SegmentItems, OpenItems, RenameItems;
    match w {
      case ProcessStarted(pid) => StartReadsBack(items, pid);
      case SegmentEnded(process, segment) => SegmentIsRead(items, process, segment);
      case ProcessExited(_, _) => assert items + AllShown([]) == items;
      case _ => FileIsRead(items, w);
    }
  }

  lemma {:induction false} RecordsReadBack(sink: seq<Written>)
    requires forall i | 0 <= i < |sink| :: Readable(sink[i])
    ensures RecordsRead([ROOT_TRACK] + AllShown(AllItems(sink))) == AllAsRead(sink)
  {
    hide Readable, Shown, RecordItems, RecordsRead, AllShown, AsRead;
    if sink == [] {
      NothingRead();
    } else {
      var n := |sink| - 1;
      RecordsReadBack(sink[..n]);
      ShownConcat(AllItems(sink[..n]), RecordItems(sink[n]));
      ConcatAssociates([ROOT_TRACK], AllShown(AllItems(sink[..n])), AllShown(RecordItems(sink[n])));
      OneMoreRead([ROOT_TRACK] + AllShown(AllItems(sink[..n])), sink[n]);
    }
  }

  lemma NothingRead()
    ensures RecordsRead([ROOT_TRACK] + AllShown([])) == []
  {
    assert [ROOT_TRACK] + AllShown([]) == [ROOT_TRACK] && [ROOT_TRACK][..0] == [];
  }

  /**
   Reading a file's bytes gives back every record but the exit reports, each in full and in order, only
   segments shorter than the shortest there is lengthened to that.
   */
  lemma BytesTellRecords(sink: seq<Written>)
    requires forall i | 0 <= i < |sink| :: Readable(sink[i])
    requires 4 * |sink| < TWO_TO_64 - 4 && TraceObject.Fits(WriteItems(NEW_TRACE, AllItems(sink)).packets)
    ensures var read := ReadTrace(TraceBytes(WriteItems(NEW_TRACE, AllItems(sink)).packets));
            read.Some? && RecordsRead(read.value) == AllAsRead(sink)
  {
    hide WriteItems, AllShown, ReadTrace, Scalar, RecordsRead, Readable;
    RecordsAreScalar(sink);
    BytesTellItems(AllItems(sink));
    RecordsReadBack(sink);
  }

  // ---- Tracks ----

  predicate IsPid(pid: int) {
    0 < pid < 0x8000_0000
  }

  /** Processes, files, compilers and the build itself have tracks of their own. */
  lemma TracksAreDistinct(pid: int, other: int, thread: nat, backend: Text)
    requires IsPid(pid) && IsPid(other)
    ensures ProcessTrack(pid) == ProcessTrack(other) <==> pid == other
    ensures FileTrack(pid) == FileTrack(other) <==> pid == other
    ensures ROOT_TRACK_UUID < ProcessTrack(pid) && ROOT_TRACK_UUID < FileTrack(other)
    ensures ProcessTrack(pid) != FileTrack(other)
    ensures CompilerTrack(pid, thread, backend) > ProcessTrack(other)
    ensures CompilerTrack(pid, thread, backend) > FileTrack(other)
  {
  }

  /** Compiler tracks are shared by just the threads whose low 29 bits, backend and pid are the same. */
  lemma CompilerTracksAreDistinct(pid: int, thread: nat, backend: Text, pid': int, thread': nat, backend': Text)
    requires IsPid(pid) && IsPid(pid')
    ensures CompilerTrack(pid, thread, backend) == CompilerTrack(pid', thread', backend')
       <==> pid == pid' && thread % 0x2000_0000 == thread' % 0x2000_0000
            && BackendDiscriminator(backend) == BackendDiscriminator(backend')
  {
  }
}
