/**
 A reader of the trace. It goes through the packets once, left to right, with a table of ids for each
 kind of string, and recovers what was written with every string in full.
 */
module TraceReader {
  import opened Basics
  import opened Wire
  import opened TraceWriter

  // ---- Fields ----

  /** The last field of this number: a later one replaces an earlier. */
  function Find(fields: Fields, number: FieldNumber): Option<Field>
    decreases fields
  {
    match fields
    case Nil => None
    case Cons(first, rest) =>
      if Find(rest, number).Some? then Find(rest, number) else if first.number == number then Some(first) else None
  }

  function UintAt(fields: Fields, number: FieldNumber): Option<Word> {
    match Find(fields, number)
    case Some(Uint(_, value)) => Some(value)
    case _ => None
  }

  function BytesAt(fields: Fields, number: FieldNumber): Option<Text> {
    match Find(fields, number)
    case Some(Bytes(_, data)) => Some(data)
    case _ => None
  }

  function MessageAt(fields: Fields, number: FieldNumber): Option<Fields> {
    match Find(fields, number)
    case Some(Message(_, content)) => Some(content)
    case _ => None
  }

  lemma FindCons(first: Field, rest: Fields)
    ensures forall n :: Find(Cons(first, rest), n)
                     == if Find(rest, n).Some? then Find(rest, n) else if first.number == n then Some(first) else None
  {
  }

  lemma FindNil()
    ensures forall n :: Find(Nil, n) == None
  {
  }

  lemma FindOpt(field: Option<Field>, rest: Fields)
    ensures forall n :: Find(Opt(field, rest), n)
                     == if Find(rest, n).Some? then Find(rest, n)
                        else if field.Some? && field.value.number == n then field else None
  {
  }

  // ---- The reader ----

  type Ids = map<Word, Text>

  /** `ready` once the sequence has begun; ids mean nothing before. */
  datatype Reader = Reader(ready: bool, categories: Ids, names: Ids, annotationNames: Ids, annotationValues: Ids)

  const NEW_READER := Reader(false, map[], map[], map[], map[])

  /** What a packet declares is known from that packet on. */
  function Declare(r: Reader, data: Fields): Reader
    decreases data
  {
    match data
    case Nil => r
    case Cons(first, rest) => Declare(DeclareOne(r, first), rest)
  }

  function DeclareOne(r: Reader, field: Field): Reader {
    if !field.Message? || UintAt(field.content, STRING_IID).None? || BytesAt(field.content,
                                                                             STRING_VALUE).None? then r else
      var iid, value := UintAt(field.content, STRING_IID).value, BytesAt(field.content, STRING_VALUE).value;
      if field.number == EVENT_CATEGORIES then r.(categories := r.categories[iid := value])
      else if field.number == EVENT_NAMES then r.(names := r.names[iid := value])
      else if field.number == DEBUG_ANNOTATION_NAMES then r.(annotationNames := r.annotationNames[iid := value])
      else if field.number == DEBUG_ANNOTATION_STRING_VALUES
      then r.(annotationValues := r.annotationValues[iid := value])
      else r
  }

  /** The string an id stands for, if it is given one; None if the id was never declared. */
  function Lookup(ids: Ids, iid: Option<Word>): Option<Option<Text>> {
    if iid.None? then Some(None) else if iid.value in ids then Some(Some(ids[iid.value])) else None
  }

  function LookupAnnotation(r: Reader, annotation: Option<Fields>): Option<Option<(Text, Text)>> {
    if annotation.None? then Some(None) else
      var name := Lookup(r.annotationNames, UintAt(annotation.value, ANNOTATION_NAME_IID));
      var value := Lookup(r.annotationValues, UintAt(annotation.value, ANNOTATION_STRING_VALUE_IID));
      if name.Some? && name.value.Some? && value.Some? && value.value.Some?
      then Some(Some((name.value.value, value.value.value))) else None
  }

  function ReadEvent(r: Reader, time: Option<Word>, event: Fields): Option<TraceEvent> {
    var kind, track := UintAt(event, EVENT_TYPE), UintAt(event, EVENT_TRACK_UUID);
    var category := Lookup(r.categories, UintAt(event, EVENT_CATEGORY_IIDS));
    var name := Lookup(r.names, UintAt(event, EVENT_NAME_IID));
    var annotation := LookupAnnotation(r, MessageAt(event, EVENT_DEBUG_ANNOTATIONS));
    var args := MessageAt(event, BUILDPROF_EXTENSION_FIELD);
    if time.None? || kind.None? || track.None? || category.None? || name.None? || annotation.None? then None
    else Some(TraceEvent(time.value, kind.value, track.value, category.value, name.value, annotation.value,
                         if args.Some? then args.value else Nil))
  }

  function ReadTrack(descriptor: Fields): Option<Item> {
    var uuid, name := UintAt(descriptor, DESCRIPTOR_UUID), BytesAt(descriptor, DESCRIPTOR_NAME);
    if uuid.None? || name.None? then None
    else Some(Track(uuid.value, UintAt(descriptor, DESCRIPTOR_PARENT_UUID), name.value,
                    if UintAt(descriptor, DESCRIPTOR_MERGE_BEHAVIOR) == Some(MERGE_BY_KEY)
                    then BytesAt(descriptor, DESCRIPTOR_MERGE_KEY) else None))
  }

  datatype Reading = Reading(reader: Reader, items: seq<Item>)

  /** Reads one packet, or fails if it says too little or uses an id that was not declared. */
  function ReadPacket(r: Reader, packet: Fields): Option<Reading> {
    var flags := UintAt(packet, SEQUENCE_FLAGS);
    var r1 := if flags == Some(STATE_CLEARED) then NEW_READER.(ready := true) else r;
    if flags == Some(NEEDS_STATE) && !r1.ready then None else
      var data := MessageAt(packet, INTERNED_DATA);
      var r2 := if data.Some? then Declare(r1, data.value) else r1;
      var event, track := MessageAt(packet, TRACK_EVENT), MessageAt(packet, TRACK_DESCRIPTOR);
      if event.Some? then
        var read := ReadEvent(r2, UintAt(packet, TIMESTAMP), event.value);
        if read.None? then None else Some(Reading(r2, [Event(read.value)]))
      else if track.Some? then
        var read := ReadTrack(track.value);
        if read.None? then None else Some(Reading(r2, [read.value]))
      else Some(Reading(r2, []))
  }

  function ReadPackets(packets: seq<Fields>): Option<Reading> {
    if packets == [] then Some(Reading(NEW_READER, [])) else
      var n := |packets| - 1;
      match ReadPackets(packets[..n])
      case None => None
      case Some(before) => Then(before, ReadPacket(before.reader, packets[n]))
  }

  function Then(before: Reading, read: Option<Reading>): Option<Reading> {
    if read.None? then None else Some(Reading(read.value.reader, before.items + read.value.items))
  }

  // ---- Ids ----

  /** Ids count from one, and no two strings share one. */
  ghost predicate Dense(table: Table) {
    && (forall v | v in table :: 1 <= table[v] <= |table|)
    && (forall v, w | v in table && w in table && table[v] == table[w] :: v == w)
  }

  /** The reader knows every id the writer has given out, and no later one. */
  ghost predicate Agrees(table: Table, ids: Ids) {
    && (forall v | v in table :: table[v] in ids && ids[table[v]] == v)
    && (forall i | i in ids :: 1 <= i <= |table|)
  }

  lemma AgreeingIsDense(table: Table, ids: Ids)
    requires Agrees(table, ids)
    ensures Dense(table)
  {
  }

  lemma InternAgrees(table: Table, ids: Ids, value: Text)
    requires Agrees(table, ids) && |table| < TWO_TO_64 - 1
    ensures Agrees(Interned(table, value), ids[IdOf(table, value) := value])
    ensures value in table ==> ids[IdOf(table, value) := value] == ids
    ensures |Interned(table, value)| <= |table| + 1
  {
    hide IdOf, Agrees;
    if value in table {
      KnownId(table, ids, value);
    } else {
      NextId(table, value);
      AddAgrees(table, ids, value, IdOf(table, value));
    }
  }

  lemma NextId(table: Table, value: Text)
    requires value !in table && |table| < TWO_TO_64 - 1
    ensures IdOf(table, value) == |table| + 1
  {
  }

  lemma KnownId(table: Table, ids: Ids, value: Text)
    requires Agrees(table, ids) && value in table
    ensures ids[IdOf(table, value) := value] == ids
  {
  }

  lemma AddAgrees(table: Table, ids: Ids, value: Text, id: Word)
    requires Agrees(table, ids) && value !in table && id == |table| + 1
    ensures |table[value := id]| == |table| + 1
    ensures Agrees(table[value := id], ids[id := value])
  {
    assert table[value := id].Keys == table.Keys + {value};
    assert |table[value := id].Keys| == |table| + 1;
  }

  function UpTo(n: nat): (ids: set<int>)
    ensures |ids| == n && forall i :: i in ids <==> 1 <= i <= n
  {
    if n == 0 then {} else UpTo(n - 1) + {n}
  }

  lemma {:induction false} DenseIdsAreUsed(table: Table, id: Word)
    requires Dense(table) && 1 <= id <= |table|
    ensures exists v :: v in table && table[v] == id
  {
    if forall v | v in table :: table[v] != id {
      var ids := set v | v in table :: table[v] as int;
      IdsAreMany(table, table.Keys, ids);
      assert ids <= UpTo(|table|) - {id as int};
      Subset(ids, UpTo(|table|) - {id as int});
      assert false;
    }
  }

  lemma {:induction false} IdsAreMany(table: Table, keys: set<Text>, ids: set<int>)
    requires Dense(table) && keys <= table.Keys && ids == set v | v in keys :: table[v] as int
    ensures |ids| == |keys|
    decreases |keys|
  {
    if keys != {} {
      var v :| v in keys;
      var fewer := set w | w in keys - {v} :: table[w] as int;
      assert ids == fewer + {table[v] as int};
      assert table[v] as int !in fewer;
      IdsAreMany(table, keys - {v}, fewer);
    }
  }

  lemma {:induction false} Subset(a: set<int>, b: set<int>)
    requires a <= b
    ensures |a| <= |b|
  {
    assert b == a + (b - a);
  }

  // ---- Reading back one packet ----

  /** A reader's ids after a string's declaration, if it needed one. */
  function Known(ids: Ids, table: Table, value: Option<Text>): Ids {
    if value.Some? && value.value !in table then ids[IdOf(table, value.value) := value.value] else ids
  }

  lemma DeclarationRead(r: Reader, field: FieldNumber, iid: Word, value: Text)
    ensures DeclareOne(r, InternedString(field, iid, value))
         == if field == EVENT_CATEGORIES then r.(categories := r.categories[iid := value])
            else if field == EVENT_NAMES then r.(names := r.names[iid := value])
            else if field == DEBUG_ANNOTATION_NAMES then r.(annotationNames := r.annotationNames[iid := value])
            else if field == DEBUG_ANNOTATION_STRING_VALUES
            then r.(annotationValues := r.annotationValues[iid := value])
            else r
  {
    hide Find;
    FindNil();
    FindCons(Bytes(STRING_VALUE, value), Nil);
    FindCons(Uint(STRING_IID, iid), Cons(Bytes(STRING_VALUE, value), Nil));
  }

  lemma DeclareTwo(r: Reader, first: Option<Field>, second: Option<Field>)
    ensures Declare(r, Opt(first, Opt(second, Nil)))
         == var r1 := if first.Some? then DeclareOne(r, first.value) else r;
            if second.Some? then DeclareOne(r1, second.value) else r1
  {
    hide DeclareOne;
    var r1 := if first.Some? then DeclareOne(r, first.value) else r;
    var r2 := if second.Some? then DeclareOne(r1, second.value) else r1;
    assert Declare(r2, Nil) == r2;
    assert Declare(r1, Opt(second, Nil)) == r2;
  }

  /** A packet of declarations says nothing but those. */
  lemma DeclarationsRead(r: Reader, first: Option<Field>, second: Option<Field>, flags: Option<Word>)
    requires flags == None || (flags == Some(NEEDS_STATE) && r.ready)
    requires first.Some? || second.Some?
    ensures var packets := Declarations(first, second, flags);
            |packets| == 1 && ReadPacket(r, packets[0]) == Some(Reading(Declare(r, Opt(first, Opt(second, Nil))), []))
  {
    hide Find, Declare;
    var data := Message(INTERNED_DATA, Opt(first, Opt(second, Nil)));
    FindNil();
    FindCons(data, Nil);
    FindOpt(if flags.Some? then Some(Uint(SEQUENCE_FLAGS, flags.value)) else None, Cons(data, Nil));
    FindCons(Uint(SEQUENCE_ID, PACKET_SEQUENCE_ID), OptUint(SEQUENCE_FLAGS, flags, Cons(data, Nil)));
  }

  lemma EventPacketRead(r: Reader, time: Word, event: Fields)
    requires r.ready && ReadEvent(r, Some(time), event).Some?
    ensures ReadPacket(r, EventPacket(time, event)) == Some(Reading(r, [Event(ReadEvent(r, Some(time), event).value)]))
  {
    hide Find, ReadEvent;
    var f1 := Cons(Message(TRACK_EVENT, event), Nil);
    var f2 := Cons(Uint(SEQUENCE_FLAGS, NEEDS_STATE), f1);
    var f3 := Cons(Uint(SEQUENCE_ID, PACKET_SEQUENCE_ID), f2);
    FindNil();
    FindCons(Message(TRACK_EVENT, event), Nil);
    FindCons(Uint(SEQUENCE_FLAGS, NEEDS_STATE), f1);
    FindCons(Uint(SEQUENCE_ID, PACKET_SEQUENCE_ID), f2);
    FindCons(Uint(TIMESTAMP, time), f3);
  }

  lemma AnnotationRead(r: Reader, ids: (Word, Word))
    requires ids.0 in r.annotationNames && ids.1 in r.annotationValues
    ensures LookupAnnotation(r, Some(AnnotationField(Some(ids)).value.content))
         == Some(Some((r.annotationNames[ids.0], r.annotationValues[ids.1])))
  {
    hide Find;
    FindNil();
    FindCons(Uint(ANNOTATION_STRING_VALUE_IID, ids.1), Nil);
    FindCons(Uint(ANNOTATION_NAME_IID, ids.0), Cons(Uint(ANNOTATION_STRING_VALUE_IID, ids.1), Nil));
  }

  /** What an event's fields hold, found by number. */
  lemma EventFound(kind: Word, track: Word, category: Option<Word>, name: Option<Word>,
                   annotation: Option<(Word, Word)>, args: Fields)
    ensures var e := TrackEvent(kind, track, category, name, annotation, args);
            && UintAt(e, EVENT_TYPE) == Some(kind) && UintAt(e, EVENT_TRACK_UUID) == Some(track)
            && UintAt(e, EVENT_CATEGORY_IIDS) == category && UintAt(e, EVENT_NAME_IID) == name
            && MessageAt(e, EVENT_DEBUG_ANNOTATIONS)
               == (if annotation.Some? then Some(AnnotationField(annotation).value.content) else None)
            && MessageAt(e, BUILDPROF_EXTENSION_FIELD) == (if kind == TYPE_SLICE_END then None else Some(args))
  {
    hide Find;
    var f1 := Opt(ArgsField(kind, args), Nil);
    var f2 := Opt(AnnotationField(annotation), f1);
    var f3 := OptUint(EVENT_NAME_IID, name, f2);
    var f4 := OptUint(EVENT_CATEGORY_IIDS, category, f3);
    var f5 := Cons(Uint(EVENT_TRACK_UUID, track), f4);
    FindNil();
    FindOpt(ArgsField(kind, args), Nil);
    FindOpt(AnnotationField(annotation), f1);
    FindOpt(if name.Some? then Some(Uint(EVENT_NAME_IID, name.value)) else None, f2);
    FindOpt(if category.Some? then Some(Uint(EVENT_CATEGORY_IIDS, category.value)) else None, f3);
    FindCons(Uint(EVENT_TRACK_UUID, track), f4);
    FindCons(Uint(EVENT_TYPE, kind), f5);
  }

  lemma TrackRead(uuid: Word, parent: Option<Word>, name: Text, mergeKey: Option<Text>)
    ensures ReadTrack(TrackDescriptor(uuid, parent, name, mergeKey)) == Some(Track(uuid, parent, name, mergeKey))
  {
    hide Find;
    var key := if mergeKey.Some? then Some(Bytes(DESCRIPTOR_MERGE_KEY, mergeKey.value)) else None;
    var behavior := if mergeKey.Some? then Some(MERGE_BY_KEY) else None;
    var f1 := Opt(key, Nil);
    var f2 := OptUint(DESCRIPTOR_MERGE_BEHAVIOR, behavior, f1);
    var f3 := OptUint(DESCRIPTOR_PARENT_UUID, parent, f2);
    var f4 := Cons(Bytes(DESCRIPTOR_NAME, name), f3);
    FindNil();
    FindOpt(key, Nil);
    FindOpt(if behavior.Some? then Some(Uint(DESCRIPTOR_MERGE_BEHAVIOR, behavior.value)) else None, f1);
    FindOpt(if parent.Some? then Some(Uint(DESCRIPTOR_PARENT_UUID, parent.value)) else None, f2);
    FindCons(Bytes(DESCRIPTOR_NAME, name), f3);
    FindCons(Uint(DESCRIPTOR_UUID, uuid), f4);
  }

  lemma TrackPacketRead(r: Reader, flags: Option<Word>, descriptor: Fields)
    requires ReadTrack(descriptor).Some? && (flags == None || flags == Some(STATE_CLEARED))
    ensures ReadPacket(r, TrackPacket(flags, descriptor))
         == Some(Reading(if flags.Some? then NEW_READER.(ready := true) else r, [ReadTrack(descriptor).value]))
  {
    hide Find, ReadTrack;
    var f1 := Cons(Message(TRACK_DESCRIPTOR, descriptor), Nil);
    var f2 := OptUint(SEQUENCE_FLAGS, flags, f1);
    FindNil();
    FindCons(Message(TRACK_DESCRIPTOR, descriptor), Nil);
    FindOpt(if flags.Some? then Some(Uint(SEQUENCE_FLAGS, flags.value)) else None, f1);
    FindCons(Uint(SEQUENCE_ID, PACKET_SEQUENCE_ID), f2);
  }

  // ---- Reading back what was written ----

  ghost predicate AgreeAll(t: Tables, r: Reader) {
    && r.ready
    && Agrees(t.categories, r.categories) && Agrees(t.names, r.names)
    && Agrees(t.annotationNames, r.annotationNames) && Agrees(t.annotationValues, r.annotationValues)
  }

  /** No table has more strings than `used`. */
  predicate AtMost(t: Tables, used: nat) {
    |t.categories| <= used && |t.names| <= used && |t.annotationNames| <= used && |t.annotationValues| <= used
  }

  /** Reading what has been written gives these items, and the ids the writer will use next. */
  ghost predicate Tells(w: Trace, items: seq<Item>, used: nat) {
    && AtMost(w.tables, used)
    && match ReadPackets(w.packets)
       case None => false
       case Some(read) => read.items == items && AgreeAll(w.tables, read.reader)
  }

  lemma ReadOneMore(packets: seq<Fields>, packet: Fields)
    requires ReadPackets(packets).Some?
    ensures ReadPackets(packets + [packet])
         == Then(ReadPackets(packets).value, ReadPacket(ReadPackets(packets).value.reader, packet))
  {
    assert (packets + [packet])[..|packets|] == packets;
  }

  /** Interning a string keeps the reader's ids in step, whether it had to be declared or not. */
  lemma KnownAgrees(table: Table, ids: Ids, value: Option<Text>)
    requires Agrees(table, ids) && |table| < TWO_TO_64 - 1
    ensures Agrees(InternedOption(table, value), Known(ids, table, value))
    ensures |InternedOption(table, value)| <= |table| + 1
    ensures value.Some? ==> IdOf(table, value.value) in Known(ids, table, value)
                            && Known(ids, table, value)[IdOf(table, value.value)] == value.value
    ensures Lookup(Known(ids, table, value), IdOption(table, value)) == Some(value)
  {
    if value.Some? {
      InternAgrees(table, ids, value.value);
    }
  }

  lemma DeclaredRead(r: Reader, field: FieldNumber, table: Table, value: Option<Text>)
    requires Declaration(field, table, value).Some?
    ensures DeclareOne(r, Declaration(field, table, value).value)
         == if field == EVENT_CATEGORIES then r.(categories := Known(r.categories, table, value))
            else if field == EVENT_NAMES then r.(names := Known(r.names, table, value))
            else if field == DEBUG_ANNOTATION_NAMES then r.(annotationNames := Known(r.annotationNames, table, value))
            else if field == DEBUG_ANNOTATION_STRING_VALUES
            then r.(annotationValues := Known(r.annotationValues, table, value))
            else r
  {
    hide DeclareOne;
    DeclarationRead(r, field, IdOf(table, value.value), value.value);
  }

  /** The packet of an event's new strings, if there is one, leaves the reader knowing both strings. */
  lemma StringsTold(packets: seq<Fields>, t: Tables, category: Option<Text>, name: Option<Text>)
    requires ReadPackets(packets).Some? && ReadPackets(packets).value.reader.ready
    ensures var read := ReadPackets(packets).value;
            ReadPackets(packets + Declarations(Declaration(EVENT_CATEGORIES, t.categories, category),
                                               Declaration(EVENT_NAMES, t.names, name), Some(NEEDS_STATE)))
            == Some(Reading(read.reader.(categories := Known(read.reader.categories, t.categories, category),
                                         names := Known(read.reader.names, t.names, name)), read.items))
  {
    hide ReadPacket, ReadPackets, DeclareOne, Declare;
    var read := ReadPackets(packets).value;
    var first, second := Declaration(EVENT_CATEGORIES, t.categories, category), Declaration(EVENT_NAMES, t.names, name);
    var declared := Declarations(first, second, Some(NEEDS_STATE));
    if first.None? && second.None? {
      assert packets + declared == packets;
    } else {
      DeclarationsRead(read.reader, first, second, Some(NEEDS_STATE));
      assert declared == [declared[0]];
      ReadOneMore(packets, declared[0]);
      assert read.items + [] == read.items;
      DeclareTwo(read.reader, first, second);
      var r1 := read.reader.(categories := Known(read.reader.categories, t.categories, category));
      if first.Some? {
        DeclaredRead(read.reader, EVENT_CATEGORIES, t.categories, category);
      }
      assert r1 == if first.Some? then DeclareOne(read.reader, first.value) else read.reader;
      if second.Some? {
        DeclaredRead(r1, EVENT_NAMES, t.names, name);
      }
    }
  }

  lemma AnnotationTold(packets: seq<Fields>, t: Tables, name: Text, value: Text)
    requires ReadPackets(packets).Some?
    ensures var read := ReadPackets(packets).value;
            ReadPackets(packets + Declarations(Declaration(DEBUG_ANNOTATION_NAMES, t.annotationNames, Some(name)),
                                               Declaration(DEBUG_ANNOTATION_STRING_VALUES, t.annotationValues,
                                                           Some(value)),
                                               None))
            == Some(Reading(read.reader.(annotationNames := Known(read.reader.annotationNames, t.annotationNames,
                                                                  Some(name)),
                                         annotationValues := Known(read.reader.annotationValues, t.annotationValues,
                                                                   Some(value))), read.items))
  {
    hide ReadPacket, ReadPackets, DeclareOne, Declare;
    var read := ReadPackets(packets).value;
    var first := Declaration(DEBUG_ANNOTATION_NAMES, t.annotationNames, Some(name));
    var second := Declaration(DEBUG_ANNOTATION_STRING_VALUES, t.annotationValues, Some(value));
    var declared := Declarations(first, second, None);
    if first.None? && second.None? {
      assert packets + declared == packets;
    } else {
      DeclarationsRead(read.reader, first, second, None);
      assert declared == [declared[0]];
      ReadOneMore(packets, declared[0]);
      assert read.items + [] == read.items;
      DeclareTwo(read.reader, first, second);
      var r1 := read.reader.(annotationNames := Known(read.reader.annotationNames, t.annotationNames, Some(name)));
      if first.Some? {
        DeclaredRead(read.reader, DEBUG_ANNOTATION_NAMES, t.annotationNames, Some(name));
      }
      assert r1 == if first.Some? then DeclareOne(read.reader, first.value) else read.reader;
      if second.Some? {
        DeclaredRead(r1, DEBUG_ANNOTATION_STRING_VALUES, t.annotationValues, Some(value));
      }
    }
  }

  /** The end of a slice is written without its arguments; every other item in full. */
  function Shown(item: Item): Item {
    match item
    case Track(_, _, _, _) => item
    case Event(e) => if e.kind == TYPE_SLICE_END then Event(e.(args := Nil)) else item
  }

  function AllShown(items: seq<Item>): seq<Item> {
    if items == [] then [] else AllShown(items[..|items| - 1]) + [Shown(items[|items| - 1])]
  }

  lemma AnnotationAgrees(w: Trace, items: seq<Item>, used: nat, name: Text, value: Text)
    requires Tells(w, items, used) && used < TWO_TO_64 - 2
    ensures Tells(WriteAnnotation(w, name, value), items, used + 1)
    ensures var ids := AnnotationIds(w.tables, name, value);
            var r := ReadPackets(WriteAnnotation(w, name, value).packets).value.reader;
            && ids.0 in r.annotationNames && r.annotationNames[ids.0] == name
            && ids.1 in r.annotationValues && r.annotationValues[ids.1] == value
  {
    hide ReadPackets, Declarations, Declaration, Agrees, IdOf, Interned, Known;
    var r := ReadPackets(w.packets).value.reader;
    AnnotationTold(w.packets, w.tables, name, value);
    KnownAgrees(w.tables.annotationNames, r.annotationNames, Some(name));
    KnownAgrees(w.tables.annotationValues, r.annotationValues, Some(value));
  }

  lemma EventTold(w: Trace, items: seq<Item>, used: nat, e: TraceEvent, annotation: Option<(Word, Word)>)
    requires Tells(w, items, used) && used < TWO_TO_64 - 2
    requires annotation.Some? <==> e.annotation.Some?
    requires annotation.Some? ==>
               var r := ReadPackets(w.packets).value.reader;
               && annotation.value.0 in r.annotationNames && annotation.value.1 in r.annotationValues
               && e.annotation.value == (r.annotationNames[annotation.value.0], r.annotationValues[annotation.value.1])
    ensures Tells(WriteEvent(w, e.time, e.kind, e.track, e.category, e.name, annotation, e.args),
                  items + [Shown(Event(e))], used + 1)
  {
    hide ReadPackets, ReadPacket, Declarations, Declaration, Agrees, IdOf, InternedOption, IdOption, Known, Find,
         TrackEvent, EventPacket, AnnotationField, UintAt, MessageAt, LookupAnnotation, Lookup;
    var t, r := w.tables, ReadPackets(w.packets).value.reader;
    StringsTold(w.packets, t, e.category, e.name);
    KnownAgrees(t.categories, r.categories, e.category);
    KnownAgrees(t.names, r.names, e.name);
    var declared := w.packets + Declarations(Declaration(EVENT_CATEGORIES, t.categories, e.category),
                                             Declaration(EVENT_NAMES, t.names, e.name), Some(NEEDS_STATE));
    var r1 := ReadPackets(declared).value.reader;
    var event := TrackEvent(e.kind, e.track, IdOption(t.categories, e.category), IdOption(t.names, e.name), annotation,
                            e.args);
    EventFound(e.kind, e.track, IdOption(t.categories, e.category), IdOption(t.names, e.name), annotation, e.args);
    if annotation.Some? {
      AnnotationRead(r1, annotation.value);
    } else {
      NoAnnotation(r1);
    }
    assert Some(Event(ReadEvent(r1, Some(e.time), event).value)) == Some(Shown(Event(e)));
    EventPacketRead(r1, e.time, event);
    ReadOneMore(declared, EventPacket(e.time, event));
  }

  lemma NoAnnotation(r: Reader)
    ensures LookupAnnotation(r, None) == Some(None)
  {
  }

  lemma ItemTold(w: Trace, items: seq<Item>, used: nat, item: Item)
    requires Tells(w, items, used) && used < TWO_TO_64 - 4
    ensures Tells(WriteItem(w, item), items + [Shown(item)], used + 2)
  {
    hide ReadPackets, ReadPacket, WriteEvent, WriteAnnotation, Agrees, TrackDescriptor, AnnotationIds, TrackPacket;
    match item {
      case Track(uuid, parent, name, mergeKey) =>
        TrackRead(uuid, parent, name, mergeKey);
        var r := ReadPackets(w.packets).value.reader;
        TrackPacketRead(r, None, TrackDescriptor(uuid, parent, name, mergeKey));
        ReadOneMore(w.packets, TrackPacket(None, TrackDescriptor(uuid, parent, name, mergeKey)));
      case Event(e) =>
        if e.annotation.Some? {
          var (name, value) := e.annotation.value;
          AnnotationAgrees(w, items, used, name, value);
          EventTold(WriteAnnotation(w, name, value), items, used + 1, e, Some(AnnotationIds(w.tables, name, value)));
        } else {
          EventTold(w, items, used, e, None);
        }
    }
  }

  lemma NewTraceTells()
    ensures Tells(NEW_TRACE, [ROOT_TRACK], 0)
  {
    hide ReadPacket, TrackDescriptor, TrackPacket, ReadTrack;
    TrackRead(ROOT_TRACK_UUID, None, ROOT_TRACK_NAME, None);
    TrackPacketRead(NEW_READER, Some(STATE_CLEARED), TrackDescriptor(ROOT_TRACK_UUID, None, ROOT_TRACK_NAME, None));
    assert ReadPackets([]) == Some(Reading(NEW_READER, []));
    ReadOneMore([], Preamble());
    assert [] + [Preamble()] == [Preamble()];
  }

  /**
   Interning changes nothing a reader sees: every item written is read back with its strings in full,
   so each id was declared, in a packet before its first use.
   */
  lemma {:induction false} ItemsAreTold(items: seq<Item>)
    requires 2 * |items| < TWO_TO_64 - 4
    ensures Tells(WriteItems(NEW_TRACE, items), [ROOT_TRACK] + AllShown(items), 2 * |items|)
  {
    hide Tells, WriteItem;
    if items == [] {
      NewTraceTells();
      assert [ROOT_TRACK] + AllShown(items) == [ROOT_TRACK];
    } else {
      var n := |items| - 1;
      ItemsAreTold(items[..n]);
      ItemTold(WriteItems(NEW_TRACE, items[..n]), [ROOT_TRACK] + AllShown(items[..n]), 2 * n, items[n]);
      ConcatAssociates([ROOT_TRACK], AllShown(items[..n]), [Shown(items[n])]);
    }
  }

  /** The writer's four tables, after these items. */
  function TablesAfter(items: seq<Item>): set<Table> {
    var t := WriteItems(NEW_TRACE, items).tables;
    {t.categories, t.names, t.annotationNames, t.annotationValues}
  }

  lemma TablesAreDense(items: seq<Item>)
    requires 2 * |items| < TWO_TO_64 - 4
    ensures forall table | table in TablesAfter(items) :: Dense(table)
  {
    hide WriteItems, Dense, Agrees, AllShown, ReadPackets;
    ItemsAreTold(items);
    var w := WriteItems(NEW_TRACE, items);
    var r := ReadPackets(w.packets).value.reader;
    AgreeingIsDense(w.tables.categories, r.categories);
    AgreeingIsDense(w.tables.names, r.names);
    AgreeingIsDense(w.tables.annotationNames, r.annotationNames);
    AgreeingIsDense(w.tables.annotationValues, r.annotationValues);
  }

  /** In any table a trace's writer comes to, each id from one up to the table's size is one string's and no other's. */
  lemma EveryIdIsUsed(items: seq<Item>, table: Table, id: Word)
    requires 2 * |items| < TWO_TO_64 - 4 && table in TablesAfter(items) && 1 <= id <= |table|
    ensures exists v :: v in table && table[v] == id && forall w | w in table && table[w] == id :: w == v
  {
    TablesAreDense(items);
    DenseIdsAreUsed(table, id);
  }

  // ---- Declarations ----

  function OfNumber(data: Fields, number: FieldNumber): seq<Field>
    decreases data
  {
    match data
    case Nil => []
    case Cons(first, rest) => (if first.number == number then [first] else []) + OfNumber(rest, number)
  }

  /** What a packet declares of one kind of string. */
  function DeclaredIn(packet: Fields, kind: FieldNumber): seq<Field> {
    match MessageAt(packet, INTERNED_DATA)
    case None => []
    case Some(data) => OfNumber(data, kind)
  }

  function DeclaredBy(packets: seq<Fields>, kind: FieldNumber): seq<Field> {
    if packets == [] then [] else DeclaredBy(packets[..|packets| - 1], kind) + DeclaredIn(packets[|packets| - 1], kind)
  }

  /** The declarations of a table are of its strings, each once, numbered from one as they come. */
  ghost predicate Numbered(declared: seq<Field>, kind: FieldNumber, table: Table) {
    && |declared| == |table|
    && forall i | 0 <= i < |declared| :: Declares(declared[i], kind, table, i + 1)
  }

  /** `field` declares the string that has this id. */
  ghost predicate Declares(field: Field, kind: FieldNumber, table: Table, id: int) {
    exists v :: v in table && table[v] == id && field == InternedString(kind, table[v], v)
  }

  lemma DeclareMore(packets: seq<Fields>, packet: Fields, kind: FieldNumber)
    ensures DeclaredBy(packets + [packet], kind) == DeclaredBy(packets, kind) + DeclaredIn(packet, kind)
  {
    assert (packets + [packet])[..|packets|] == packets;
  }

  lemma OthersDeclareNothing(kind: FieldNumber, time: Word, event: Fields, flags: Option<Word>, descriptor: Fields)
    ensures DeclaredIn(EventPacket(time, event), kind) == [] && DeclaredIn(TrackPacket(flags, descriptor), kind) == []
  {
    hide Find;
    var e1 := Cons(Message(TRACK_EVENT, event), Nil);
    var e2 := Cons(Uint(SEQUENCE_FLAGS, NEEDS_STATE), e1);
    var e3 := Cons(Uint(SEQUENCE_ID, PACKET_SEQUENCE_ID), e2);
    FindNil();
    FindCons(Message(TRACK_EVENT, event), Nil);
    FindCons(Uint(SEQUENCE_FLAGS, NEEDS_STATE), e1);
    FindCons(Uint(SEQUENCE_ID, PACKET_SEQUENCE_ID), e2);
    FindCons(Uint(TIMESTAMP, time), e3);
    var d1 := Cons(Message(TRACK_DESCRIPTOR, descriptor), Nil);
    FindCons(Message(TRACK_DESCRIPTOR, descriptor), Nil);
    FindOpt(if flags.Some? then Some(Uint(SEQUENCE_FLAGS, flags.value)) else None, d1);
    FindCons(Uint(SEQUENCE_ID, PACKET_SEQUENCE_ID), OptUint(SEQUENCE_FLAGS, flags, d1));
  }

  /** A declaring packet declares just the fields it is given. */
  lemma DeclarationsDeclare(packets: seq<Fields>, first: Option<Field>, second: Option<Field>, flags: Option<Word>,
                            kind: FieldNumber)
    ensures DeclaredBy(packets + Declarations(first, second, flags), kind)
         == DeclaredBy(packets, kind)
            + ((if first.Some? && first.value.number == kind then [first.value] else [])
               + (if second.Some? && second.value.number == kind then [second.value] else []))
  {
    hide Find, DeclaredBy;
    var declared := Declarations(first, second, flags);
    if first.None? && second.None? {
      assert packets + declared == packets;
    } else {
      var content := Opt(first, Opt(second, Nil));
      FindNil();
      FindCons(Message(INTERNED_DATA, content), Nil);
      FindOpt(if flags.Some? then Some(Uint(SEQUENCE_FLAGS, flags.value)) else None,
              Cons(Message(INTERNED_DATA, content), Nil));
      FindCons(Uint(SEQUENCE_ID, PACKET_SEQUENCE_ID), OptUint(SEQUENCE_FLAGS, flags,
                                                              Cons(Message(INTERNED_DATA, content), Nil)));
      assert declared == [declared[0]];
      DeclareMore(packets, declared[0], kind);
      TwoOfNumber(first, second, kind);
    }
  }

  lemma TwoOfNumber(first: Option<Field>, second: Option<Field>, kind: FieldNumber)
    ensures OfNumber(Opt(first, Opt(second, Nil)), kind)
         == (if first.Some? && first.value.number == kind then [first.value] else [])
            + (if second.Some? && second.value.number == kind then [second.value] else [])
  {
    assert OfNumber(Nil, kind) == [];
    assert OfNumber(Opt(second, Nil), kind)
        == if second.Some? && second.value.number == kind then [second.value] else [];
  }

  lemma NumberMore(declared: seq<Field>, kind: FieldNumber, table: Table, value: Option<Text>)
    requires Numbered(declared, kind, table) && |table| < TWO_TO_64 - 1
    ensures var more := Declaration(kind, table, value);
            Numbered(declared + if more.Some? then [more.value] else [], kind, InternedOption(table, value))
  {
    hide IdOf, InternedString;
    if Declaration(kind, table, value).Some? {
      NextId(table, value.value);
      NumberOne(declared, kind, table, value.value);
    } else {
      assert declared + [] == declared;
    }
  }

  lemma NumberOne(declared: seq<Field>, kind: FieldNumber, table: Table, value: Text)
    requires Numbered(declared, kind, table) && value !in table && |table| < TWO_TO_64 - 1
    ensures Numbered(declared + [InternedString(kind, |table| + 1, value)], kind, table[value := |table| + 1])
  {
    hide InternedString, Declares;
    var grown := table[value := |table| + 1];
    OneMoreKey(table, value, |table| + 1);
    var more := declared + [InternedString(kind, |table| + 1, value)];
    NowDeclares(kind, grown, value);
    forall i | 0 <= i < |more| ensures Declares(more[i], kind, grown, i + 1) {
      if i < |declared| {
        StillDeclares(declared[i], kind, table, i + 1, value, |table| + 1);
      }
    }
  }

  lemma OneMoreKey(table: Table, value: Text, next: Word)
    requires value !in table
    ensures |table[value := next]| == |table| + 1
  {
    var grown := table[value := next];
    assert grown.Keys == table.Keys + {value};
  }

  lemma StillDeclares(field: Field, kind: FieldNumber, table: Table, id: int, value: Text, next: Word)
    requires Declares(field, kind, table, id) && value !in table
    ensures Declares(field, kind, table[value := next], id)
  {
    hide InternedString;
    var v :| v in table && table[v] == id && field == InternedString(kind, table[v], v);
    assert v in table[value := next];
  }

  lemma NowDeclares(kind: FieldNumber, table: Table, value: Text)
    requires value in table
    ensures Declares(InternedString(kind, table[value], value), kind, table, table[value])
  {
  }

  ghost predicate AllNumbered(w: Trace) {
    && Numbered(DeclaredBy(w.packets, EVENT_CATEGORIES), EVENT_CATEGORIES, w.tables.categories)
    && Numbered(DeclaredBy(w.packets, EVENT_NAMES), EVENT_NAMES, w.tables.names)
    && Numbered(DeclaredBy(w.packets, DEBUG_ANNOTATION_NAMES), DEBUG_ANNOTATION_NAMES, w.tables.annotationNames)
    && Numbered(DeclaredBy(w.packets, DEBUG_ANNOTATION_STRING_VALUES), DEBUG_ANNOTATION_STRING_VALUES,
                w.tables.annotationValues)
  }

  lemma EventNumbers(w: Trace, time: Word, kind: Word, track: Word, category: Option<Text>, name: Option<Text>,
                     annotation: Option<(Word, Word)>, args: Fields, used: nat)
    requires AllNumbered(w) && AtMost(w.tables, used) && used < TWO_TO_64 - 1
    ensures AllNumbered(WriteEvent(w, time, kind, track, category, name, annotation, args))
    ensures AtMost(WriteEvent(w, time, kind, track, category, name, annotation, args).tables, used + 1)
  {
    hide Numbered, DeclaredBy, DeclaredIn, Declarations, InternedOption, TrackEvent, EventPacket;
    var t := w.tables;
    var first, second := Declaration(EVENT_CATEGORIES, t.categories, category), Declaration(EVENT_NAMES, t.names, name);
    var event := TrackEvent(kind, track, IdOption(t.categories, category), IdOption(t.names, name), annotation, args);
    NumberMore(DeclaredBy(w.packets, EVENT_CATEGORIES), EVENT_CATEGORIES, t.categories, category);
    NumberMore(DeclaredBy(w.packets, EVENT_NAMES), EVENT_NAMES, t.names, name);
    InternedSize(t.categories, category);
    InternedSize(t.names, name);
    forall k ensures DeclaredBy(WriteEvent(w, time, kind, track, category, name, annotation, args).packets, k)
                  == DeclaredBy(w.packets, k)
                     + ((if first.Some? && first.value.number == k then [first.value] else [])
                        + (if second.Some? && second.value.number == k then [second.value] else []))
    {
      DeclarationsDeclare(w.packets, first, second, Some(NEEDS_STATE), k);
      DeclareMore(w.packets + Declarations(first, second, Some(NEEDS_STATE)), EventPacket(time, event), k);
      OthersDeclareNothing(k, time, event, None, Nil);
    }
    NoneAndOne(first, second);
    KeepsAll(DeclaredBy(w.packets, DEBUG_ANNOTATION_NAMES));
    KeepsAll(DeclaredBy(w.packets, DEBUG_ANNOTATION_STRING_VALUES));
  }

  lemma KeepsAll(declared: seq<Field>)
    ensures declared + ([] + []) == declared
  {
  }

  lemma NoneAndOne(first: Option<Field>, second: Option<Field>)
    ensures first.Some? ==> [first.value] + [] == [first.value]
    ensures second.Some? ==> [] + [second.value] == [second.value]
    ensures var none: seq<Field> := []; none + none == none
  {
  }

  lemma InternedSize(table: Table, value: Option<Text>)
    ensures |InternedOption(table, value)| <= |table| + 1
  {
    if value.Some? && value.value !in table {
      assert Interned(table, value.value).Keys == table.Keys + {value.value};
      assert |Interned(table, value.value).Keys| == |table| + 1;
    }
  }

  lemma AnnotationNumbers(w: Trace, name: Text, value: Text, used: nat)
    requires AllNumbered(w) && AtMost(w.tables, used) && used < TWO_TO_64 - 1
    ensures AllNumbered(WriteAnnotation(w, name, value))
    ensures AtMost(WriteAnnotation(w, name, value).tables, used + 1)
  {
    hide Numbered, DeclaredBy, Declarations, Interned;
    var t := w.tables;
    var first := Declaration(DEBUG_ANNOTATION_NAMES, t.annotationNames, Some(name));
    var second := Declaration(DEBUG_ANNOTATION_STRING_VALUES, t.annotationValues, Some(value));
    NumberMore(DeclaredBy(w.packets, DEBUG_ANNOTATION_NAMES), DEBUG_ANNOTATION_NAMES, t.annotationNames, Some(name));
    NumberMore(DeclaredBy(w.packets, DEBUG_ANNOTATION_STRING_VALUES), DEBUG_ANNOTATION_STRING_VALUES,
               t.annotationValues,
               Some(value));
    InternedSize(t.annotationNames, Some(name));
    InternedSize(t.annotationValues, Some(value));
    forall k ensures DeclaredBy(WriteAnnotation(w, name, value).packets, k)
                  == DeclaredBy(w.packets, k)
                     + ((if first.Some? && first.value.number == k then [first.value] else [])
                        + (if second.Some? && second.value.number == k then [second.value] else []))
    {
      DeclarationsDeclare(w.packets, first, second, None, k);
    }
    NoneAndOne(first, second);
    KeepsAll(DeclaredBy(w.packets, EVENT_CATEGORIES));
    KeepsAll(DeclaredBy(w.packets, EVENT_NAMES));
  }

  lemma ItemNumbers(w: Trace, item: Item, used: nat)
    requires AllNumbered(w) && AtMost(w.tables, used) && used < TWO_TO_64 - 2
    ensures AllNumbered(WriteItem(w, item)) && AtMost(WriteItem(w, item).tables, used + 2)
  {
    hide Numbered, DeclaredBy, DeclaredIn, WriteEvent, WriteAnnotation, TrackPacket, TrackDescriptor;
    match item {
      case Track(uuid, parent, name, mergeKey) =>
        var descriptor := TrackDescriptor(uuid, parent, name, mergeKey);
        forall k ensures DeclaredBy(w.packets + [TrackPacket(None, descriptor)], k) == DeclaredBy(w.packets, k) {
          DeclareMore(w.packets, TrackPacket(None, descriptor), k);
          OthersDeclareNothing(k, 0, Nil, None, descriptor);
        }
      case Event(e) =>
        if e.annotation.Some? {
          var (name, value) := e.annotation.value;
          AnnotationNumbers(w, name, value, used);
          EventNumbers(WriteAnnotation(w, name, value), e.time, e.kind, e.track, e.category, e.name,
                       Some(AnnotationIds(w.tables, name, value)), e.args, used + 1);
        } else {
          EventNumbers(w, e.time, e.kind, e.track, e.category, e.name, None, e.args, used);
        }
    }
  }

  /** Over a whole trace, each kind of string is declared once, with the ids one, two, three and so on. */
  lemma {:induction false} IdsAreDenseAndDeclaredOnce(items: seq<Item>)
    requires 2 * |items| < TWO_TO_64 - 4
    ensures AllNumbered(WriteItems(NEW_TRACE, items)) && AtMost(WriteItems(NEW_TRACE, items).tables, 2 * |items|)
  {
    hide AllNumbered, WriteItem;
    if items == [] {
      NothingNumbered();
    } else {
      var n := |items| - 1;
      IdsAreDenseAndDeclaredOnce(items[..n]);
      ItemNumbers(WriteItems(NEW_TRACE, items[..n]), items[n], 2 * n);
    }
  }

  lemma NothingNumbered()
    ensures AllNumbered(NEW_TRACE)
  {
    hide DeclaredIn, TrackPacket;
    forall k ensures DeclaredBy([Preamble()], k) == [] {
      assert DeclaredBy([], k) == [];
      assert [Preamble()][..0] == [];
      OthersDeclareNothing(k, 0, Nil, Some(STATE_CLEARED), TrackDescriptor(ROOT_TRACK_UUID, None, ROOT_TRACK_NAME,
                                                                           None));
    }
  }
}
