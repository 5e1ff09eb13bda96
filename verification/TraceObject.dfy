/** The trace writer itself: its output and its tables, which grow in place. */
module TraceObject {
  import opened Basics
  import opened Wire
  import opened TraceWriter
  import T = TrackerModel

  /** Each packet is short enough for a 64-bit machine to count. */
  predicate Fits(packets: seq<Fields>) {
    forall i | 0 <= i < |packets| :: SmallField(Message(PACKET, packets[i]))
  }

  lemma FitsPrefix(packets: seq<Fields>, more: seq<Fields>)
    requires Fits(packets + more)
    ensures Fits(packets) && Fits(more)
  {
    forall i | 0 <= i < |packets| ensures SmallField(Message(PACKET, packets[i])) {
      assert (packets + more)[i] == packets[i];
    }
    forall i | 0 <= i < |more| ensures SmallField(Message(PACKET, more[i])) {
      assert (packets + more)[|packets| + i] == more[i];
    }
  }

  /** The id of `value`, given it now if it had none. */
  method Intern(table: Table, value: Text) returns (grown: Table, iid: Word, isNew: bool)
    ensures grown == Interned(table, value) && iid == IdOf(table, value)
    ensures isNew <==> value !in table
  {
    if value in table {
      return table, table[value], false;
    }
    iid := (|table| % TWO_TO_64 + 1) % TWO_TO_64;
    return table[value := iid], iid, true;
  }

  class Writer {
    /** What has been handed to the compressor. */
    var output: Text
    var categories: Table
    var names: Table
    var annotationNames: Table
    var annotationValues: Table
    /** The packets whose bytes `output` holds. */
    ghost var packets: seq<Fields>

    ghost predicate Valid()
      reads this
    {
      output == TraceBytes(packets) && Fits(packets)
    }

    ghost function Now(): Trace
      reads this
    {
      Trace(Tables(categories, names, annotationNames, annotationValues), packets)
    }

    constructor ()
      requires Fits(NEW_TRACE.packets)
      ensures Valid() && Now() == NEW_TRACE
    {
      output, packets := [], [];
      categories, names, annotationNames, annotationValues := map[], map[], map[], map[];
      new;
      WritePacket(Preamble());
    }

    /** Writes a packet straight to the output, after counting its bytes. */
    method WritePacket(packet: Fields)
      requires Valid() && SmallField(Message(PACKET, packet))
      modifies `output, `packets
      ensures Valid() && packets == old(packets) + [packet]
    {
      var encoder := new Encoder.Writing(output);
      encoder.WriteMessage(PACKET, packet);
      output := encoder.output.written;
      packets := packets + [packet];
      TraceBytesConcat(old(packets), [packet]);
      OnePacket(packet);
    }

    method WriteEvent(time: Word, kind: Word, track: Word, category: Option<Text>, name: Option<Text>,
                      annotation: Option<(Word, Word)>, args: Fields)
      requires Valid()
      requires Fits(TraceWriter.WriteEvent(Now(), time, kind, track, category, name, annotation, args).packets)
      modifies this
      ensures Valid()
      ensures Now() == TraceWriter.WriteEvent(old(Now()), time, kind, track, category, name, annotation, args)
    {
      hide SmallField, TraceBytes, TrackEvent, EventPacket, IdOf, Interned;
      ghost var t := Now().tables;
      var newCategory: Option<Field>, newName: Option<Field> := None, None;
      var categoryIid: Option<Word>, nameIid: Option<Word> := None, None;
      if category.Some? {
        var grown, iid, isNew := Intern(categories, category.value);
        categories, categoryIid := grown, Some(iid);
        if isNew {
          newCategory := Some(InternedString(EVENT_CATEGORIES, iid, category.value));
        }
      }
      if name.Some? {
        var grown, iid, isNew := Intern(names, name.value);
        names, nameIid := grown, Some(iid);
        if isNew {
          newName := Some(InternedString(EVENT_NAMES, iid, name.value));
        }
      }
      var declared := Declarations(newCategory, newName, Some(NEEDS_STATE));
      var event := EventPacket(time, TrackEvent(kind, track, categoryIid, nameIid, annotation, args));
      FitsPrefix(packets + declared, [event]);
      FitsPrefix(packets, declared);
      assert [event][0] == event;
      if newCategory.Some? || newName.Some? {
        WritePacket(declared[0]);
        assert declared == [declared[0]];
      }
      WritePacket(event);
    }

    method InternDebugAnnotation(name: Text, value: Text) returns (ids: (Word, Word))
      requires Valid() && Fits(WriteAnnotation(Now(), name, value).packets)
      modifies this
      ensures Valid() && Now() == WriteAnnotation(old(Now()), name, value)
      ensures ids == AnnotationIds(old(Now()).tables, name, value)
    {
      hide SmallField, TraceBytes, IdOf, Interned;
      var grownNames, nameIid, newName := Intern(annotationNames, name);
      var grownValues, valueIid, newValue := Intern(annotationValues, value);
      annotationNames, annotationValues := grownNames, grownValues;
      var declared := Declarations(
        if newName then Some(InternedString(DEBUG_ANNOTATION_NAMES, nameIid, name)) else None,
        if newValue then Some(InternedString(DEBUG_ANNOTATION_STRING_VALUES, valueIid, value)) else None, None);
      FitsPrefix(packets, declared);
      if newName || newValue {
        WritePacket(declared[0]);
        assert declared == [declared[0]];
      }
      return (nameIid, valueIid);
    }

    method ProcessStarted(pid: int)
      requires Valid() && Fits(WriteItems(Now(), ProcessItems(pid)).packets)
      modifies this
      ensures Valid() && Now() == WriteItems(old(Now()), ProcessItems(pid))
    {
      hide SmallField, TraceBytes, TrackDescriptor, TrackPacket;
      var first := TrackPacket(None, TrackDescriptor(ProcessTrack(pid), Some(ROOT_TRACK_UUID), PROCESSES,
                                                     Some(PROCESS_MERGE_KEY)));
      var second := TrackPacket(None, TrackDescriptor(FileTrack(pid), Some(ROOT_TRACK_UUID), FILE_OPENS,
                                                      Some(FILE_MERGE_KEY)));
      WriteTwo(Now(), ProcessItems(pid)[0], ProcessItems(pid)[1]);
      FitsPrefix(packets + [first], [second]);
      FitsPrefix(packets, [first]);
      assert [first][0] == first && [second][0] == second;
      WritePacket(first);
      WritePacket(second);
    }

    method WriteSegment(process: T.Process, segment: T.Segment)
      requires Valid() && Fits(WriteItems(Now(), SegmentItems(process, segment)).packets)
      modifies this
      ensures Valid() && Now() == WriteItems(old(Now()), SegmentItems(process, segment))
    {
      hide SmallField, TraceBytes, SegmentArgs, TraceWriter.WriteEvent;
      var items := SegmentItems(process, segment);
      WriteTwo(Now(), items[0], items[1]);
      ghost var first := WriteItem(Now(), items[0]);
      EventAppends(first, items[1].event);
      WriteEvent(ToWord(segment.start), TYPE_SLICE_BEGIN, ProcessTrack(process.pid), Some(PROCESS_CATEGORY),
                 Some(segment.name), None, SegmentArgs(process, segment));
      var end := ToWord(T.EndAt(segment.start, segment.end));
      WriteEvent(end, TYPE_SLICE_END, ProcessTrack(process.pid), None, None, None, Nil);
    }

    method FileOpen(pid: int, time: nat, path: Text, flags: nat, fd: int, unresolved: bool)
      requires Valid() && Fits(WriteItems(Now(), OpenItems(pid, time, path, flags, fd, unresolved)).packets)
      modifies this
      ensures Valid() && Now() == WriteItems(old(Now()), OpenItems(pid, time, path, flags, fd, unresolved))
    {
      hide SmallField, TraceBytes, OpenArgs, TraceWriter.WriteEvent;
      WriteOne(Now(), OpenItems(pid, time, path, flags, fd, unresolved)[0]);
      WriteEvent(ToWord(time), TYPE_INSTANT, FileTrack(pid), Some(FILE_CATEGORY), Some(OPEN_NAME), None,
                 OpenArgs(pid, path, flags, fd, unresolved));
    }

    method Rename(pid: int, time: nat, from: Text, to: Text)
      requires Valid() && Fits(WriteItems(Now(), RenameItems(pid, time, from, to)).packets)
      modifies this
      ensures Valid() && Now() == WriteItems(old(Now()), RenameItems(pid, time, from, to))
    {
      hide SmallField, TraceBytes, RenameArgs, TraceWriter.WriteEvent;
      WriteOne(Now(), RenameItems(pid, time, from, to)[0]);
      WriteEvent(ToWord(time), TYPE_INSTANT, FileTrack(pid), Some(RENAME_CATEGORY), Some(RENAME_NAME), None,
                 RenameArgs(pid, from, to));
    }

    method CompilerSlice(pid: int, thread: nat, backend: Text, category: Text, name: Text, start: Word, duration: Word,
                         detail: Option<Text>)
      requires Valid() && Fits(WriteItems(Now(), SliceItems(pid, thread, backend, category, name, start, duration,
                                                            detail)).packets)
      modifies this
      ensures Valid()
      ensures Now() == WriteItems(old(Now()), SliceItems(pid, thread, backend, category, name, start, duration, detail))
    {
      hide SmallField, TraceBytes, SliceArgs, TraceWriter.WriteEvent, WriteAnnotation, CompilerTrack;
      var items := SliceItems(pid, thread, backend, category, name, start, duration, detail);
      WriteTwo(Now(), items[0], items[1]);
      EventAppends(WriteItem(Now(), items[0]), items[1].event);
      var track := CompilerTrack(pid, thread, backend);
      var annotation: Option<(Word, Word)> := None;
      if detail.Some? {
        AnnotationAppends(Now(), items[0].event);
        var ids := InternDebugAnnotation(DETAIL, detail.value);
        annotation := Some(ids);
      }
      WriteEvent(start, TYPE_SLICE_BEGIN, track, Some(COMPILER_CATEGORY), Some(name), annotation,
                 SliceArgs(pid, backend, category));
      WriteEvent(T.Min(start + duration, T.MAX_NS), TYPE_SLICE_END, track, None, None, None, Nil);
    }
  }

  lemma OnePacket(packet: Fields)
    ensures TraceBytes([packet]) == FieldBytes(Message(PACKET, packet))
  {
    assert TraceOf([packet]) == Cons(Message(PACKET, packet), Nil);
    assert MessageBytes(Cons(Message(PACKET, packet), Nil)) == FieldBytes(Message(PACKET, packet)) + [];
  }

  lemma WriteOne(w: Trace, item: Item)
    ensures WriteItems(w, [item]) == WriteItem(w, item)
  {
    assert [item][..0] == [];
  }

  lemma WriteTwo(w: Trace, first: Item, second: Item)
    ensures WriteItems(w, [first, second]) == WriteItem(WriteItem(w, first), second)
  {
    assert [first, second][..1] == [first];
    WriteOne(w, first);
  }

  /** An event only adds packets, so if the rest fits, so did what came before. */
  lemma EventAppends(w: Trace, e: TraceEvent)
    requires e.annotation.None? && Fits(WriteItem(w, Event(e)).packets)
    ensures Fits(w.packets)
  {
    hide SmallField;
    var declared := Declarations(Declaration(EVENT_CATEGORIES, w.tables.categories, e.category),
                                 Declaration(EVENT_NAMES, w.tables.names, e.name), Some(NEEDS_STATE));
    var last := WriteItem(w, Event(e)).packets[|w.packets + declared|..];
    assert WriteItem(w, Event(e)).packets == w.packets + declared + last;
    FitsPrefix(w.packets + declared, last);
    FitsPrefix(w.packets, declared);
  }

  lemma AnnotationAppends(w: Trace, e: TraceEvent)
    requires e.annotation.Some? && Fits(WriteItem(w, Event(e)).packets)
    ensures Fits(WriteAnnotation(w, e.annotation.value.0, e.annotation.value.1).packets)
  {
    hide SmallField;
    var w1 := WriteAnnotation(w, e.annotation.value.0, e.annotation.value.1);
    var declared := Declarations(Declaration(EVENT_CATEGORIES, w1.tables.categories, e.category),
                                 Declaration(EVENT_NAMES, w1.tables.names, e.name), Some(NEEDS_STATE));
    var last := WriteItem(w, Event(e)).packets[|w1.packets + declared|..];
    assert WriteItem(w, Event(e)).packets == w1.packets + declared + last;
    FitsPrefix(w1.packets + declared, last);
    FitsPrefix(w1.packets, declared);
  }
}
