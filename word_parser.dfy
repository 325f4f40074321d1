/** The word-dictionary record builder (`parseXMLWithStAX` in
    XmlToRoomImporter.kt): an event loop that keeps the current entry's id,
    kanji list, reading list and senses, the sense under construction with its
    pending example, and a text buffer, and hands every finished entry to the
    batcher.

    `WordStep` is the loop body as a function on a snapshot of those
    accumulators; `WordStateAt` and `WordEntriesUpTo` run it over a prefix of
    the events. The method `ParseWords` is the loop itself and is proved to
    compute exactly those. The lemmas then say what the fold means in terms of
    the document alone (positions of tags, their texts). */
module WordParser {
  import opened Common
  import opened Xml
  import opened Batching

  // ---------------------------------------------------------------------------
  // The records
  // ---------------------------------------------------------------------------

  /** `ParsedExample`. It is a mutable object in the source, but every place
      that keeps one keeps a copy, so a value models it exactly. */
  datatype ParsedExample = ParsedExample(exText: string, exSentJpn: string, exSentEng: string)

  const EmptyExample := ParsedExample("", "", "")

  predicate IsNonEmptyExample(ex: ParsedExample)
  {
    ex.exText != "" || ex.exSentJpn != "" || ex.exSentEng != ""
  }

  datatype ParsedSense = ParsedSense(
    pos: seq<string>, glosses: seq<string>, field: seq<string>, misc: seq<string>,
    stagk: seq<string>, stagr: seq<string>, xref: seq<string>, ant: seq<string>,
    sInf: seq<string>, examples: seq<ParsedExample>)

  /** `ParsedSenseBuilder`. The parser holds the only reference to it and drops
      it when the sense ends, so updating it in place and replacing it by an
      updated value cannot be told apart. Its `currentExample` is declared
      nullable but is never set to null, so it is a plain field here. */
  datatype ParsedSenseBuilder = ParsedSenseBuilder(
    pos: seq<string>, glosses: seq<string>, field: seq<string>, misc: seq<string>,
    stagk: seq<string>, stagr: seq<string>, xref: seq<string>, ant: seq<string>,
    sInf: seq<string>, examples: seq<ParsedExample>, currentExample: ParsedExample)
  {
    /** `build()`: the sense carries every list of the builder; the pending
        example is not part of it. */
    function Build(): (s: ParsedSense)
    {
      ParsedSense(pos, glosses, field, misc, stagk, stagr, xref, ant, sInf, examples)
    }
  }

  const NewBuilder := ParsedSenseBuilder([], [], [], [], [], [], [], [], [], [], EmptyExample)

  datatype ParsedEntry = ParsedEntry(
    id: string, kanjiList: seq<string>, readingList: seq<string>, senses: seq<ParsedSense>)

  // ---------------------------------------------------------------------------
  // The element names the loop reacts to
  // ---------------------------------------------------------------------------

  /** The `when (localName)` branches of the loop; every other name is
      `Untracked`. */
  datatype WordTag =
    | Entry | EntSeq | Keb | Reb
    | Pos | Gloss | Field | Misc | Stagk | Stagr | Xref | Ant | SInf
    | ExText | ExSent | Example | Sense
    | Untracked

  function WordTagName(t: WordTag): string
    requires t != Untracked
  {
    match t
    case Entry => "entry"
    case EntSeq => "ent_seq"
    case Keb => "keb"
    case Reb => "reb"
    case Pos => "pos"
    case Gloss => "gloss"
    case Field => "field"
    case Misc => "misc"
    case Stagk => "stagk"
    case Stagr => "stagr"
    case Xref => "xref"
    case Ant => "ant"
    case SInf => "s_inf"
    case ExText => "ex_text"
    case ExSent => "ex_sent"
    case Example => "example"
    case Sense => "sense"
  }

  /** `when (reader.localName)`: which branch an element name selects. */
  function WordTagOf(name: string): (t: WordTag)
    ensures t == Untracked || WordTagName(t) == name
  {
    if name == "entry" then Entry
    else if name == "ent_seq" then EntSeq
    else if name == "keb" then Keb
    else if name == "reb" then Reb
    else if name == "pos" then Pos
    else if name == "gloss" then Gloss
    else if name == "field" then Field
    else if name == "misc" then Misc
    else if name == "stagk" then Stagk
    else if name == "stagr" then Stagr
    else if name == "xref" then Xref
    else if name == "ant" then Ant
    else if name == "s_inf" then SInf
    else if name == "ex_text" then ExText
    else if name == "ex_sent" then ExSent
    else if name == "example" then Example
    else if name == "sense" then Sense
    else Untracked
  }

  /** A name is classified as a tag exactly when it is that tag's name. */
  lemma WordTagOfIff(name: string, t: WordTag)
    requires t != Untracked
    ensures WordTagOf(name) == t <==> name == WordTagName(t)
  {
    if name == WordTagName(t) {
      match t
      case Entry => assert WordTagOf("entry") == Entry;
      case EntSeq => assert WordTagOf("ent_seq") == EntSeq;
      case Keb => assert WordTagOf("keb") == Keb;
      case Reb => assert WordTagOf("reb") == Reb;
      case Pos => assert WordTagOf("pos") == Pos;
      case Gloss => assert WordTagOf("gloss") == Gloss;
      case Field => assert WordTagOf("field") == Field;
      case Misc => assert WordTagOf("misc") == Misc;
      case Stagk => assert WordTagOf("stagk") == Stagk;
      case Stagr => assert WordTagOf("stagr") == Stagr;
      case Xref => assert WordTagOf("xref") == Xref;
      case Ant => assert WordTagOf("ant") == Ant;
      case SInf => assert WordTagOf("s_inf") == SInf;
      case ExText => assert WordTagOf("ex_text") == ExText;
      case ExSent => assert WordTagOf("ex_sent") == ExSent;
      case Example => assert WordTagOf("example") == Example;
      case Sense => assert WordTagOf("sense") == Sense;
    }
  }

  /** The nine sense elements whose text is appended to a list of the builder. */
  predicate IsListTag(t: WordTag)
  {
    t.Pos? || t.Gloss? || t.Field? || t.Misc? || t.Stagk? || t.Stagr? || t.Xref? || t.Ant? || t.SInf?
  }

  /** Every element whose end acts on the open sense and on nothing else. */
  predicate IsSenseChild(t: WordTag)
  {
    IsListTag(t) || t.ExText? || t.ExSent? || t.Example?
  }

  // ---------------------------------------------------------------------------
  // The loop body as a function
  // ---------------------------------------------------------------------------

  /** The end of a sense child, with the sense open. The list elements append
      their text even when it is empty. */
  function SenseChildEnd(b: ParsedSenseBuilder, t: WordTag, text: string): ParsedSenseBuilder
  {
    match t
    case Pos => b.(pos := b.pos + [text])
    case Gloss => b.(glosses := b.glosses + [text])
    case Field => b.(field := b.field + [text])
    case Misc => b.(misc := b.misc + [text])
    case Stagk => b.(stagk := b.stagk + [text])
    case Stagr => b.(stagr := b.stagr + [text])
    case Xref => b.(xref := b.xref + [text])
    case Ant => b.(ant := b.ant + [text])
    case SInf => b.(sInf := b.sInf + [text])
    case ExText => b.(currentExample := b.currentExample.(exText := text))
    case ExSent =>
      if b.currentExample.exSentJpn == "" then b.(currentExample := b.currentExample.(exSentJpn := text))
      else b.(currentExample := b.currentExample.(exSentEng := text))
    case Example => b.(examples := b.examples + [b.currentExample], currentExample := EmptyExample)
    case _ => b
  }

  /** The end of a sense: the pending example is kept only when one of its
      fields is non-empty, then the sense is built. */
  function CloseSense(b: ParsedSenseBuilder): ParsedSense
  {
    (if IsNonEmptyExample(b.currentExample) then b.(examples := b.examples + [b.currentExample]) else b).Build()
  }

  /** A snapshot of the loop's accumulators (`entries` and `totalParsed` live in
      the batcher). */
  datatype WordState = WordState(
    entryId: string, kanjiList: seq<string>, readingList: seq<string>,
    senses: seq<ParsedSense>, currentSense: Option<ParsedSenseBuilder>, textBuffer: string)

  const WordInit := WordState("", [], [], [], None, "")

  /** START_ELEMENT, after the buffer is cleared. */
  function StartElement(st: WordState, t: WordTag): WordState
  {
    if t == Entry then st.(entryId := "", kanjiList := [], readingList := [], senses := [])
    else if t == Sense then st.(currentSense := Some(NewBuilder))
    else if t == Example && st.currentSense.Some? then
      st.(currentSense := Some(st.currentSense.value.(currentExample := EmptyExample)))
    else st
  }

  /** END_ELEMENT, given the trimmed text, before the buffer is cleared. The
      end of `entry` changes nothing here: it only hands the entry on. */
  function EndElement(st: WordState, t: WordTag, text: string): WordState
  {
    if t == EntSeq then st.(entryId := text)
    else if t == Keb then (if text != "" then st.(kanjiList := st.kanjiList + [text]) else st)
    else if t == Reb then (if text != "" then st.(readingList := st.readingList + [text]) else st)
    else if t == Sense then
      (if st.currentSense.Some? then st.(senses := st.senses + [CloseSense(st.currentSense.value)], currentSense := None)
       else st)
    else if IsSenseChild(t) && st.currentSense.Some? then
      st.(currentSense := Some(SenseChildEnd(st.currentSense.value, t, text)))
    else st
  }

  function WordStep(st: WordState, e: Event): WordState
  {
    match e
    case Start(name, _) => StartElement(st.(textBuffer := ""), WordTagOf(name))
    case Chars(t) => st.(textBuffer := st.textBuffer + t)
    case End(name) => EndElement(st, WordTagOf(name), Trim(st.textBuffer)).(textBuffer := "")
    case Other => st
  }

  predicate IsEntryEnd(e: Event)
  {
    e.End? && WordTagOf(e.name) == Entry
  }

  /** The record an `entry` end hands on. */
  function EntryOf(st: WordState): ParsedEntry
  {
    ParsedEntry(st.entryId, st.kanjiList, st.readingList, st.senses)
  }

  /** The accumulators after the first `n` events. */
  function WordStateAt(evs: seq<Event>, n: nat): WordState
    requires n <= |evs|
    decreases n
  {
    if n == 0 then WordInit else WordStep(WordStateAt(evs, n - 1), evs[n - 1])
  }

  /** The entries handed on by the first `n` events. */
  function WordEntriesUpTo(evs: seq<Event>, n: nat): seq<ParsedEntry>
    requires n <= |evs|
    decreases n
  {
    if n == 0 then []
    else WordEntriesUpTo(evs, n - 1) + (if IsEntryEnd(evs[n - 1]) then [EntryOf(WordStateAt(evs, n - 1))] else [])
  }

  function WordEntries(evs: seq<Event>): seq<ParsedEntry>
  {
    WordEntriesUpTo(evs, |evs|)
  }

  // ---------------------------------------------------------------------------
  // The loop
  // ---------------------------------------------------------------------------

  /** The accumulators of `parseXMLWithStAX`, and its three event branches.
      `entries` stands for the `entries` list, the `totalParsed` counter and
      the calls to `onBatchReady`. */
  class WordRecordBuilder {
    var currentEntryId: string
    var kanjiList: seq<string>
    var readingList: seq<string>
    var senses: seq<ParsedSense>
    var currentSense: Option<ParsedSenseBuilder>
    var textBuffer: string
    const entries: Batcher<ParsedEntry>

    function State(): WordState
      reads this
    {
      WordState(currentEntryId, kanjiList, readingList, senses, currentSense, textBuffer)
    }

    constructor (batchSize: int, checkpoint: int)
      ensures State() == WordInit
      ensures fresh(entries) && entries.Valid() && entries.items == []
      ensures entries.batchSize == batchSize && entries.initialTotal == checkpoint
    {
      currentEntryId := "";
      kanjiList := [];
      readingList := [];
      senses := [];
      currentSense := None;
      textBuffer := "";
      entries := new Batcher<ParsedEntry>(batchSize, checkpoint);
    }

    /** START_ELEMENT. */
    method OnStart(name: string, attributes: seq<Attribute>)
      modifies this
      ensures State() == WordStep(old(State()), Start(name, attributes))
    {
      textBuffer := "";
      var tag := WordTagOf(name);
      if tag == Entry {
        currentEntryId := "";
        kanjiList := [];
        readingList := [];
        senses := [];
      } else if tag == Sense {
        currentSense := Some(NewBuilder);
      } else if tag == Example && currentSense.Some? {
        currentSense := Some(currentSense.value.(currentExample := EmptyExample));
      }
    }

    /** CHARACTERS. */
    method OnCharacters(text: string)
      modifies this
      ensures State() == WordStep(old(State()), Chars(text))
    {
      textBuffer := textBuffer + text;
    }

    /** END_ELEMENT on the accumulators, given the trimmed text. */
    method ApplyEnd(tag: WordTag, text: string)
      modifies this
      ensures State() == EndElement(old(State()), tag, text)
    {
      if tag == EntSeq {
        currentEntryId := text;
      } else if tag == Keb {
        if text != "" { kanjiList := kanjiList + [text]; }
      } else if tag == Reb {
        if text != "" { readingList := readingList + [text]; }
      } else if tag == Sense {
        if currentSense.Some? {
          senses := senses + [CloseSense(currentSense.value)];
          currentSense := None;
        }
      } else if IsSenseChild(tag) && currentSense.Some? {
        currentSense := Some(SenseChildEnd(currentSense.value, tag, text));
      }
    }

    /** END_ELEMENT: the end of `entry` hands the entry on. */
    method OnEnd(name: string)
      requires entries.Valid()
      modifies this, entries
      ensures entries.Valid()
      ensures State() == WordStep(old(State()), End(name))
      ensures entries.items == old(entries.items) + (if IsEntryEnd(End(name)) then [EntryOf(old(State()))] else [])
    {
      var text := Trim(textBuffer);
      var tag := WordTagOf(name);
      if tag == Entry {
        entries.Add(ParsedEntry(currentEntryId, kanjiList, readingList, senses));
      } else {
        ApplyEnd(tag, text);
      }
      textBuffer := "";
    }

    /** One turn of the loop: `when (event)`. */
    method OnEvent(e: Event)
      requires entries.Valid()
      modifies this, entries
      ensures entries.Valid()
      ensures State() == WordStep(old(State()), e)
      ensures entries.items == old(entries.items) + (if IsEntryEnd(e) then [EntryOf(old(State()))] else [])
    {
      match e {
        case Start(name, attributes) => OnStart(name, attributes);
        case Chars(text) => OnCharacters(text);
        case End(name) => OnEnd(name);
        case Other =>
      }
    }
  }

  /** `parseXMLWithStAX` after the reader is created: `checkpoint` is the
      value `loadCheckpoint` returns, and the batches with their progress
      reports are what `onBatchReady` receives, in call order. */
  method ParseWords(events: seq<Event>, batchSize: int, checkpoint: int)
    returns (batches: seq<seq<ParsedEntry>>, reports: seq<Progress>)
    ensures Flatten(batches) == WordEntries(events)
    ensures WellBatched(batches, batchSize)
    ensures Reported(batches, reports, checkpoint)
  {
    var builder := new WordRecordBuilder(batchSize, checkpoint);
    var i := 0;
    while i < |events|
      invariant i <= |events|
      invariant fresh(builder.entries)
      invariant builder.entries.Valid()
      invariant builder.entries.batchSize == batchSize && builder.entries.initialTotal == checkpoint
      invariant builder.entries.items == WordEntriesUpTo(events, i)
      invariant builder.State() == WordStateAt(events, i)
    {
      builder.OnEvent(events[i]);
      i := i + 1;
    }
    builder.entries.Finish();
    batches := builder.entries.batches;
    reports := builder.entries.reports;
  }

  // ---------------------------------------------------------------------------
  // What the fold means
  // ---------------------------------------------------------------------------

  /** The text buffer holds the character data since the last tag. */
  lemma {:induction false} TextBufferIsCharsSinceLastTag(evs: seq<Event>, n: nat)
    requires n <= |evs|
    ensures WordStateAt(evs, n).textBuffer == BufferAt(evs, n)
    decreases n
  {
    if n > 0 {
      TextBufferIsCharsSinceLastTag(evs, n - 1);
      BufferStep(evs, n - 1);
    }
  }

  /** A start tag on the id and the two lists: only `entry` clears them. */
  lemma StartEntryFields(st: WordState, t: WordTag)
    ensures StartElement(st, t).entryId == if t == Entry then "" else st.entryId
    ensures StartElement(st, t).kanjiList == if t == Entry then [] else st.kanjiList
    ensures StartElement(st, t).readingList == if t == Entry then [] else st.readingList
  {
  }

  /** An end tag on the id and the two lists. */
  lemma EndEntryFields(st: WordState, t: WordTag, text: string)
    ensures EndElement(st, t, text).entryId == if t == EntSeq then text else st.entryId
    ensures EndElement(st, t, text).kanjiList ==
      if t == Keb && text != "" then st.kanjiList + [text] else st.kanjiList
    ensures EndElement(st, t, text).readingList ==
      if t == Reb && text != "" then st.readingList + [text] else st.readingList
  {
  }

  /** One step of the loop on the id: an `entry` start clears it, an
      `ent_seq` end sets it to the trimmed text. */
  lemma EntryIdStep(st: WordState, e: Event)
    ensures WordStep(st, e).entryId ==
      if e.Start? && e.name == "entry" then ""
      else if e == End("ent_seq") then Trim(st.textBuffer)
      else st.entryId
  {
    match e
    case Start(name, _) =>
      StartEntryFields(st.(textBuffer := ""), WordTagOf(name));
      WordTagOfIff(name, Entry);
    case Chars(_) =>
    case End(name) =>
      EndEntryFields(st, WordTagOf(name), Trim(st.textBuffer));
      WordTagOfIff(name, EntSeq);
    case Other =>
  }

  /** One step of the loop on the kanji list: an `entry` start clears it, a
      `keb` end with non-blank text appends the trimmed text. */
  lemma KanjiStep(st: WordState, e: Event)
    ensures WordStep(st, e).kanjiList ==
      if e.Start? && e.name == "entry" then []
      else if e == End("keb") && Trim(st.textBuffer) != "" then st.kanjiList + [Trim(st.textBuffer)]
      else st.kanjiList
  {
    match e
    case Start(name, _) =>
      StartEntryFields(st.(textBuffer := ""), WordTagOf(name));
      WordTagOfIff(name, Entry);
    case Chars(_) =>
    case End(name) =>
      EndEntryFields(st, WordTagOf(name), Trim(st.textBuffer));
      WordTagOfIff(name, Keb);
    case Other =>
  }

  /** The same for the reading list and `reb`. */
  lemma ReadingStep(st: WordState, e: Event)
    ensures WordStep(st, e).readingList ==
      if e.Start? && e.name == "entry" then []
      else if e == End("reb") && Trim(st.textBuffer) != "" then st.readingList + [Trim(st.textBuffer)]
      else st.readingList
  {
    match e
    case Start(name, _) =>
      StartEntryFields(st.(textBuffer := ""), WordTagOf(name));
      WordTagOfIff(name, Entry);
    case Chars(_) =>
    case End(name) =>
      EndEntryFields(st, WordTagOf(name), Trim(st.textBuffer));
      WordTagOfIff(name, Reb);
    case Other =>
  }

  /** The kanji list is the trimmed, non-empty `keb` texts since the last
      `entry` start, in document order. */
  lemma {:induction false} KanjiSinceEntryStart(evs: seq<Event>, n: nat)
    requires n <= |evs|
    ensures WordStateAt(evs, n).kanjiList == EndTexts(evs, AfterLastStart(evs, n, "entry"), n, "keb")
    decreases n
  {
    if n > 0 {
      var e := evs[n - 1];
      KanjiSinceEntryStart(evs, n - 1);
      TextBufferIsCharsSinceLastTag(evs, n - 1);
      KanjiStep(WordStateAt(evs, n - 1), e);
      if !(e.Start? && e.name == "entry") {
        var lo := AfterLastStart(evs, n - 1, "entry");
        assert AfterLastStart(evs, n, "entry") == lo;
        var t := Trim(BufferAt(evs, n - 1));
        assert EndTexts(evs, lo, n, "keb") == EndTexts(evs, lo, n - 1, "keb") + (if e == End("keb") && t != "" then [t] else []);
      }
    }
  }

  /** The reading list is the trimmed, non-empty `reb` texts since the last
      `entry` start, in document order. */
  lemma {:induction false} ReadingsSinceEntryStart(evs: seq<Event>, n: nat)
    requires n <= |evs|
    ensures WordStateAt(evs, n).readingList == EndTexts(evs, AfterLastStart(evs, n, "entry"), n, "reb")
    decreases n
  {
    if n > 0 {
      var e := evs[n - 1];
      ReadingsSinceEntryStart(evs, n - 1);
      TextBufferIsCharsSinceLastTag(evs, n - 1);
      ReadingStep(WordStateAt(evs, n - 1), e);
      if !(e.Start? && e.name == "entry") {
        var lo := AfterLastStart(evs, n - 1, "entry");
        assert AfterLastStart(evs, n, "entry") == lo;
        var t := Trim(BufferAt(evs, n - 1));
        assert EndTexts(evs, lo, n, "reb") == EndTexts(evs, lo, n - 1, "reb") + (if e == End("reb") && t != "" then [t] else []);
      }
    }
  }

  /** The id is the text of the last `ent_seq` since the last `entry` start,
      or "" when there is none. */
  lemma {:induction false} EntryIdSinceEntryStart(evs: seq<Event>, n: nat)
    requires n <= |evs|
    ensures WordStateAt(evs, n).entryId == LastEndText(evs, AfterLastStart(evs, n, "entry"), n, "ent_seq")
    decreases n
  {
    if n > 0 {
      var st := WordStateAt(evs, n - 1);
      var e := evs[n - 1];
      EntryIdSinceEntryStart(evs, n - 1);
      TextBufferIsCharsSinceLastTag(evs, n - 1);
      EntryIdStep(WordStateAt(evs, n - 1), e);
      if e.Start? && e.name == "entry" {
        assert AfterLastStart(evs, n, "entry") == n;
      } else {
        var lo := AfterLastStart(evs, n - 1, "entry");
        assert AfterLastStart(evs, n, "entry") == lo;
        assert LastEndText(evs, lo, n, "ent_seq") ==
          if e == End("ent_seq") then Trim(BufferAt(evs, n - 1)) else LastEndText(evs, lo, n - 1, "ent_seq");
      }
    }
  }

  /** The senses closed by the `sense` ends in `evs[lo..hi]`, in document
      order: each is the open builder at that point, built. A `sense` end
      with no sense open closes nothing. */
  ghost function SensesClosed(evs: seq<Event>, lo: nat, hi: nat): seq<ParsedSense>
    requires lo <= hi <= |evs|
    decreases hi - lo
  {
    if lo == hi then []
    else
      var st := WordStateAt(evs, hi - 1);
      SensesClosed(evs, lo, hi - 1) +
        (if evs[hi - 1] == End("sense") && st.currentSense.Some? then [CloseSense(st.currentSense.value)] else [])
  }

  /** One step other than an `entry` start adds a sense only at a `sense`
      end with a sense open, and that sense is the open builder, built. */
  lemma SenseStep(st: WordState, e: Event)
    requires !(e.Start? && e.name == "entry")
    ensures WordStep(st, e).senses ==
      st.senses + (if e == End("sense") && st.currentSense.Some? then [CloseSense(st.currentSense.value)] else [])
  {
    match e
    case Start(name, _) => WordTagOfIff(name, Entry);
    case Chars(_) =>
    case End(name) => WordTagOfIff(name, Sense);
    case Other =>
  }

  /** The entry's senses are one built sense per `sense` end since the last
      `entry` start, in document order. */
  lemma {:induction false} SensesSinceEntryStart(evs: seq<Event>, n: nat)
    requires n <= |evs|
    ensures WordStateAt(evs, n).senses == SensesClosed(evs, AfterLastStart(evs, n, "entry"), n)
    decreases n
  {
    if n > 0 {
      var e := evs[n - 1];
      if !(e.Start? && e.name == "entry") {
        var lo := AfterLastStart(evs, n - 1, "entry");
        assert AfterLastStart(evs, n, "entry") == lo;
        SensesSinceEntryStart(evs, n - 1);
        SenseStep(WordStateAt(evs, n - 1), e);
      }
    }
  }

  /** Every `entry` end hands on exactly one record, whose id, lists and
      senses are the ones the four lemmas above describe at that point. */
  lemma EmittedEntry(evs: seq<Event>, i: nat)
    requires i < |evs| && evs[i] == End("entry")
    ensures WordEntriesUpTo(evs, i + 1) == WordEntriesUpTo(evs, i) + [EntryOf(WordStateAt(evs, i))]
    ensures EntryOf(WordStateAt(evs, i)).kanjiList == EndTexts(evs, AfterLastStart(evs, i, "entry"), i, "keb")
    ensures EntryOf(WordStateAt(evs, i)).readingList == EndTexts(evs, AfterLastStart(evs, i, "entry"), i, "reb")
    ensures EntryOf(WordStateAt(evs, i)).id == LastEndText(evs, AfterLastStart(evs, i, "entry"), i, "ent_seq")
    ensures EntryOf(WordStateAt(evs, i)).senses == SensesClosed(evs, AfterLastStart(evs, i, "entry"), i)
  {
    KanjiSinceEntryStart(evs, i);
    SensesSinceEntryStart(evs, i);
    ReadingsSinceEntryStart(evs, i);
    EntryIdSinceEntryStart(evs, i);
  }

  /** One record per `entry` end, no more and no fewer. */
  lemma {:induction false} OneEntryPerEntryEnd(evs: seq<Event>, n: nat)
    requires n <= |evs|
    ensures |WordEntriesUpTo(evs, n)| == CountEnds(evs, n, "entry")
    decreases n
  {
    if n > 0 {
      OneEntryPerEntryEnd(evs, n - 1);
      if evs[n - 1].End? {
        WordTagOfIff(evs[n - 1].name, Entry);
      }
    }
  }

  /** An `entry` start forgets the previous entry's id, lists and senses; the
      open sense, if any, is left alone. */
  lemma EntryStartClears(st: WordState, attrs: seq<Attribute>)
    ensures var st' := WordStep(st, Start("entry", attrs));
      st'.entryId == "" && st'.kanjiList == [] && st'.readingList == [] && st'.senses == []
      && st'.currentSense == st.currentSense
  {
    WordTagOfIff("entry", Entry);
  }

  /** `ex_sent` fills the Japanese sentence while it is empty and the English
      one afterwards. */
  lemma ExSentIsPositional(st: WordState, b: ParsedSenseBuilder)
    requires st.currentSense == Some(b)
    ensures var t := Trim(st.textBuffer);
      var st' := WordStep(st, End("ex_sent"));
      if b.currentExample.exSentJpn == "" then
        st'.currentSense == Some(b.(currentExample := b.currentExample.(exSentJpn := t)))
      else
        st'.currentSense == Some(b.(currentExample := b.currentExample.(exSentEng := t)))
  {
    WordTagOfIff("ex_sent", ExSent);
  }

  /** An `example` end appends the pending example even when all of it is
      empty, and starts a fresh one. */
  lemma ExampleEndAlwaysAppends(st: WordState, b: ParsedSenseBuilder)
    requires st.currentSense == Some(b)
    ensures var st' := WordStep(st, End("example"));
      st'.currentSense == Some(b.(examples := b.examples + [b.currentExample], currentExample := EmptyExample))
  {
    WordTagOfIff("example", Example);
  }

  /** A `sense` end appends the pending example only when one of its fields is
      non-empty, appends the built sense, which carries every list of the
      builder, and closes the sense; the entry's id and lists are kept. */
  lemma SenseEndKeepsOnlyNonEmptyExample(st: WordState, b: ParsedSenseBuilder)
    requires st.currentSense == Some(b)
    ensures var st' := WordStep(st, End("sense"));
      && st'.currentSense == None
      && |st'.senses| == |st.senses| + 1
      && st'.senses[..|st.senses|] == st.senses
      && st'.senses[|st.senses|].examples ==
         (if IsNonEmptyExample(b.currentExample) then b.examples + [b.currentExample] else b.examples)
      && st'.senses == st.senses + [CloseSense(b)]
      && var s := st'.senses[|st.senses|];
      && s.pos == b.pos && s.glosses == b.glosses && s.field == b.field
      && s.misc == b.misc && s.stagk == b.stagk && s.stagr == b.stagr
      && s.xref == b.xref && s.ant == b.ant && s.sInf == b.sInf
      && st'.entryId == st.entryId && st'.kanjiList == st.kanjiList && st'.readingList == st.readingList
  {
    WordTagOfIff("sense", Sense);
  }

  /** With no sense open, a sense child's end is ignored (only the buffer is
      cleared). */
  lemma SenseChildWithoutSenseIgnored(st: WordState, name: string)
    requires st.currentSense.None? && IsSenseChild(WordTagOf(name))
    ensures WordStep(st, End(name)) == st.(textBuffer := "")
  {
  }

  /** No event of `evs[lo..hi]` touches the examples of an open sense: no
      `sense` start or end and no `example`, `ex_text` or `ex_sent` end. */
  ghost predicate NoExampleEvents(evs: seq<Event>, lo: nat, hi: nat)
    requires lo <= hi <= |evs|
  {
    forall k :: lo <= k < hi ==>
      !(evs[k].Start? && evs[k].name == "sense") &&
      evs[k] != End("sense") && evs[k] != End("example") &&
      evs[k] != End("ex_text") && evs[k] != End("ex_sent")
  }

  /** `NoExampleStep` on a start tag. */
  lemma StartKeepsNoExamples(st: WordState, t: WordTag)
    requires st.currentSense.Some? && st.currentSense.value.examples == []
    requires st.currentSense.value.currentExample == EmptyExample
    requires t != Sense
    ensures StartElement(st, t).currentSense == st.currentSense
  {
  }

  /** `NoExampleStep` on an end tag. */
  lemma EndKeepsNoExamples(st: WordState, t: WordTag, text: string)
    requires st.currentSense.Some? && st.currentSense.value.examples == []
    requires st.currentSense.value.currentExample == EmptyExample
    requires t != Sense && t != Example && t != ExText && t != ExSent
    ensures EndElement(st, t, text).currentSense.Some?
    ensures EndElement(st, t, text).currentSense.value.examples == []
    ensures EndElement(st, t, text).currentSense.value.currentExample == EmptyExample
  {
  }

  /** One step of `OpenSenseWithoutExamples`. */
  lemma NoExampleStep(st: WordState, e: Event)
    requires st.currentSense.Some? && st.currentSense.value.examples == []
    requires st.currentSense.value.currentExample == EmptyExample
    requires !(e.Start? && e.name == "sense")
    requires e != End("sense") && e != End("example") && e != End("ex_text") && e != End("ex_sent")
    ensures WordStep(st, e).currentSense.Some?
    ensures WordStep(st, e).currentSense.value.examples == []
    ensures WordStep(st, e).currentSense.value.currentExample == EmptyExample
  {
    match e
    case Start(name, _) =>
      WordTagOfIff(name, Sense);
      StartKeepsNoExamples(st.(textBuffer := ""), WordTagOf(name));
    case Chars(_) =>
    case End(name) =>
      WordTagOfIff(name, Sense);
      WordTagOfIff(name, Example);
      WordTagOfIff(name, ExText);
      WordTagOfIff(name, ExSent);
      EndKeepsNoExamples(st, WordTagOf(name), Trim(st.textBuffer));
    case Other =>
  }

  /** Between a `sense` start and the next event that could give it an
      example, the open sense has no examples and an empty pending one. */
  lemma {:induction false} OpenSenseWithoutExamples(evs: seq<Event>, i: nat, n: nat)
    requires i < n <= |evs|
    requires evs[i].Start? && evs[i].name == "sense"
    requires NoExampleEvents(evs, i + 1, n)
    ensures WordStateAt(evs, n).currentSense.Some?
    ensures WordStateAt(evs, n).currentSense.value.examples == []
    ensures WordStateAt(evs, n).currentSense.value.currentExample == EmptyExample
    decreases n
  {
    if n > i + 1 {
      OpenSenseWithoutExamples(evs, i, n - 1);
      NoExampleStep(WordStateAt(evs, n - 1), evs[n - 1]);
    }
  }

  /** So a sense with no example elements is built with no examples. */
  lemma SenseWithoutExampleElements(evs: seq<Event>, i: nat, j: nat)
    requires i < j < |evs|
    requires evs[i].Start? && evs[i].name == "sense" && evs[j] == End("sense")
    requires NoExampleEvents(evs, i + 1, j)
    ensures var before := WordStateAt(evs, j).senses;
      var after := WordStateAt(evs, j + 1).senses;
      |after| == |before| + 1 && after[|before|].examples == []
  {
    OpenSenseWithoutExamples(evs, i, j);
    var st := WordStateAt(evs, j);
    SenseEndKeepsOnlyNonEmptyExample(st, st.currentSense.value);
  }
}
