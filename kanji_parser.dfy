/** The kanji-dictionary record builder (`parseKanjiXMLWithStAX` in
    XmlToRoomImporter.kt): an event loop over KANJIDIC-style `character`
    elements that keeps the current literal, stroke count, frequency, JLPT
    level, stroke-order file name, meanings and readings, and hands one
    record per `character` end to the batcher.

    As for the word builder, `KanjiStep` is the loop body on a snapshot of
    the accumulators, `KanjiStateAt` and `KanjiEntriesUpTo` run it over a
    prefix of the events, and `ParseKanji` is the loop proved to compute
    them. Only the meanings, the readings, the meaning language and the code
    point type are reset at the end of a character; the other fields carry
    over into the next one. */
module KanjiParser {
  import opened Common
  import opened Xml
  import opened Batching

  // ---------------------------------------------------------------------------
  // The records
  // ---------------------------------------------------------------------------

  /** `KanjiReading` before insertion (its auto-generated `id` is still 0 and
      is not modelled). */
  datatype KanjiReading = KanjiReading(kanjiLiteral: string, reading: string, readingType: string)

  datatype KanjiEntry = KanjiEntry(
    literal: string, strokeCount: int, freq: Option<int>, jlpt: Option<int>,
    meanings: seq<string>, fileSvgName: Option<string>)

  datatype ParsedKanjiEntry = ParsedKanjiEntry(kanjiEntry: KanjiEntry, readings: seq<KanjiReading>)

  // ---------------------------------------------------------------------------
  // Element names and attributes
  // ---------------------------------------------------------------------------

  /** The element names either handler of the loop tests for; every other
      name is `Untracked`. */
  datatype KanjiTag =
    | Literal | StrokeCount | Freq | Jlpt | CpValue | Meaning | Reading | Character
    | Untracked

  function KanjiTagName(t: KanjiTag): string
    requires t != Untracked
  {
    match t
    case Literal => "literal"
    case StrokeCount => "stroke_count"
    case Freq => "freq"
    case Jlpt => "jlpt"
    case CpValue => "cp_value"
    case Meaning => "meaning"
    case Reading => "reading"
    case Character => "character"
  }

  /** Which branch an element name selects. */
  function KanjiTagOf(name: string): (t: KanjiTag)
    ensures t == Untracked || KanjiTagName(t) == name
  {
    if name == "literal" then Literal
    else if name == "stroke_count" then StrokeCount
    else if name == "freq" then Freq
    else if name == "jlpt" then Jlpt
    else if name == "cp_value" then CpValue
    else if name == "meaning" then Meaning
    else if name == "reading" then Reading
    else if name == "character" then Character
    else Untracked
  }

  /** A name is classified as a tag exactly when it is that tag's name. */
  lemma KanjiTagOfIff(name: string, t: KanjiTag)
    requires t != Untracked
    ensures KanjiTagOf(name) == t <==> name == KanjiTagName(t)
  {
    if name == KanjiTagName(t) {
      match t
      case Literal => assert KanjiTagOf("literal") == Literal;
      case StrokeCount => assert KanjiTagOf("stroke_count") == StrokeCount;
      case Freq => assert KanjiTagOf("freq") == Freq;
      case Jlpt => assert KanjiTagOf("jlpt") == Jlpt;
      case CpValue => assert KanjiTagOf("cp_value") == CpValue;
      case Meaning => assert KanjiTagOf("meaning") == Meaning;
      case Reading => assert KanjiTagOf("reading") == Reading;
      case Character => assert KanjiTagOf("character") == Character;
    }
  }

  /** An `r_type` attribute naming an on or kun reading. */
  predicate IsJapaneseReading(a: Attribute)
  {
    a.localName == "r_type" && (a.value == "ja_on" || a.value == "ja_kun")
  }

  /** The readings a `reading` start adds, one per `r_type` attribute whose
      value is `ja_on` or `ja_kun`, in attribute order, with empty text. */
  function NewReadings(attrs: seq<Attribute>, literal: string): seq<KanjiReading>
    decreases |attrs|
  {
    if attrs == [] then []
    else
      var a := attrs[|attrs| - 1];
      NewReadings(attrs[..|attrs| - 1], literal)
        + (if IsJapaneseReading(a) then [KanjiReading(literal, "", a.value)] else [])
  }

  /** The value of the last attribute called `name`, or `current` when there
      is none: the loop assigns the variable at every match. */
  function LastValue(attrs: seq<Attribute>, name: string, current: Option<string>): Option<string>
    decreases |attrs|
  {
    if attrs == [] then current
    else if attrs[|attrs| - 1].localName == name then Some(attrs[|attrs| - 1].value)
    else LastValue(attrs[..|attrs| - 1], name, current)
  }

  /** The readings added are exactly the Japanese `r_type` attributes, each
      turned into a reading of the literal with empty text. */
  lemma {:induction false} NewReadingsAreFiltered(attrs: seq<Attribute>, literal: string)
    ensures |NewReadings(attrs, literal)| == |Filter(attrs, IsJapaneseReading)|
    ensures forall k :: 0 <= k < |NewReadings(attrs, literal)| ==>
      NewReadings(attrs, literal)[k] == KanjiReading(literal, "", Filter(attrs, IsJapaneseReading)[k].value)
    decreases |attrs|
  {
    if attrs != [] {
      var init := attrs[..|attrs| - 1];
      var a := attrs[|attrs| - 1];
      NewReadingsAreFiltered(init, literal);
      assert attrs == init + [a];
      FilterConcat(init, [a], IsJapaneseReading);
      assert Filter([a], IsJapaneseReading) == if IsJapaneseReading(a) then [a] else [] by {
        assert [a][1..] == [];
      }
    }
  }

  /** What `LastValue` means: either no attribute is called `name` and the
      value is kept, or it is the value of one that no later attribute of
      that name follows. */
  lemma {:induction false} LastValueFacts(attrs: seq<Attribute>, name: string, current: Option<string>)
    ensures (forall k :: 0 <= k < |attrs| ==> attrs[k].localName != name) ==>
      LastValue(attrs, name, current) == current
    ensures (exists k :: 0 <= k < |attrs| && attrs[k].localName == name) ==>
      exists k :: 0 <= k < |attrs| && attrs[k].localName == name
        && LastValue(attrs, name, current) == Some(attrs[k].value)
        && forall j :: k < j < |attrs| ==> attrs[j].localName != name
    decreases |attrs|
  {
    if attrs != [] {
      var init := attrs[..|attrs| - 1];
      LastValueFacts(init, name, current);
      if attrs[|attrs| - 1].localName != name {
        forall k | 0 <= k < |init| ensures init[k] == attrs[k] { }
      }
    }
  }

  // ---------------------------------------------------------------------------
  // The loop body as a function
  // ---------------------------------------------------------------------------

  /** A snapshot of the loop's accumulators (`entries` and `totalParsed` live
      in the batcher). */
  datatype KanjiState = KanjiState(
    currentLiteral: string, strokeCount: int, freq: Option<int>, jlpt: Option<int>,
    fileSvgName: Option<string>, meanings: seq<string>, readings: seq<KanjiReading>,
    currentMeaningLang: Option<string>, currentCpType: Option<string>, textBuffer: string)

  const KanjiInit := KanjiState("", 0, None, None, None, [], [], None, None, "")

  /** START_ELEMENT, after the buffer is cleared. */
  function KanjiStartElement(st: KanjiState, t: KanjiTag, attrs: seq<Attribute>): KanjiState
  {
    if t == Reading then st.(readings := st.readings + NewReadings(attrs, st.currentLiteral))
    else if t == Meaning then st.(currentMeaningLang := LastValue(attrs, "m_lang", st.currentMeaningLang))
    else if t == CpValue then st.(currentCpType := LastValue(attrs, "cp_type", st.currentCpType))
    else st
  }

  /** `text.toIntOrNull() ?: 0`. */
  function IntOrZero(text: string): int
  {
    match ParseInt(text)
    case Some(v) => v
    case None => 0
  }

  /** `"0${text}.svg"`. */
  function SvgName(text: string): string
  {
    "0" + text + ".svg"
  }

  /** END_ELEMENT other than `character`, given the trimmed text, before the
      buffer is cleared. */
  function KanjiEndElement(st: KanjiState, t: KanjiTag, text: string): KanjiState
  {
    if t == Literal then st.(currentLiteral := text)
    else if t == StrokeCount then st.(strokeCount := IntOrZero(text))
    else if t == Freq then st.(freq := ParseInt(text))
    else if t == Jlpt then st.(jlpt := ParseInt(text))
    else if t == CpValue then (if st.currentCpType == Some("ucs") then st.(fileSvgName := Some(SvgName(text))) else st)
    else if t == Meaning then (if st.currentMeaningLang.None? then st.(meanings := st.meanings + [text]) else st)
    else if t == Reading then
      (if st.readings != [] && st.readings[|st.readings| - 1].reading == "" then
         st.(readings := st.readings[|st.readings| - 1 := st.readings[|st.readings| - 1].(reading := text)])
       else st)
    else if t == Character then
      st.(meanings := [], readings := [], currentMeaningLang := None, currentCpType := None)
    else st
  }

  function KanjiStep(st: KanjiState, e: Event): KanjiState
  {
    match e
    case Start(name, attrs) => KanjiStartElement(st.(textBuffer := ""), KanjiTagOf(name), attrs)
    case Chars(t) => st.(textBuffer := st.textBuffer + t)
    case End(name) => KanjiEndElement(st, KanjiTagOf(name), Trim(st.textBuffer)).(textBuffer := "")
    case Other => st
  }

  predicate IsCharacterEnd(e: Event)
  {
    e.End? && KanjiTagOf(e.name) == Character
  }

  /** The record a `character` end hands on, built before anything is reset. */
  function KanjiEntryOf(st: KanjiState): ParsedKanjiEntry
  {
    ParsedKanjiEntry(
      KanjiEntry(st.currentLiteral, st.strokeCount, st.freq, st.jlpt, st.meanings, st.fileSvgName),
      st.readings)
  }

  function KanjiStateAt(evs: seq<Event>, n: nat): KanjiState
    requires n <= |evs|
    decreases n
  {
    if n == 0 then KanjiInit else KanjiStep(KanjiStateAt(evs, n - 1), evs[n - 1])
  }

  function KanjiEntriesUpTo(evs: seq<Event>, n: nat): seq<ParsedKanjiEntry>
    requires n <= |evs|
    decreases n
  {
    if n == 0 then []
    else KanjiEntriesUpTo(evs, n - 1) + (if IsCharacterEnd(evs[n - 1]) then [KanjiEntryOf(KanjiStateAt(evs, n - 1))] else [])
  }

  function KanjiEntries(evs: seq<Event>): seq<ParsedKanjiEntry>
  {
    KanjiEntriesUpTo(evs, |evs|)
  }

  // ---------------------------------------------------------------------------
  // The loop
  // ---------------------------------------------------------------------------

  /** The accumulators of `parseKanjiXMLWithStAX` and its event branches. */
  class KanjiRecordBuilder {
    var currentLiteral: string
    var strokeCount: int
    var freq: Option<int>
    var jlpt: Option<int>
    var fileSvgName: Option<string>
    var meanings: seq<string>
    var readings: seq<KanjiReading>
    var currentMeaningLang: Option<string>
    var currentCpType: Option<string>
    var textBuffer: string
    const entries: Batcher<ParsedKanjiEntry>

    function State(): KanjiState
      reads this
    {
      KanjiState(currentLiteral, strokeCount, freq, jlpt, fileSvgName, meanings, readings,
                 currentMeaningLang, currentCpType, textBuffer)
    }

    /** The kanji corpus always starts counting from 0. */
    constructor (batchSize: int)
      ensures State() == KanjiInit
      ensures fresh(entries) && entries.Valid() && entries.items == []
      ensures entries.batchSize == batchSize && entries.initialTotal == 0
    {
      currentLiteral := "";
      strokeCount := 0;
      freq := None;
      jlpt := None;
      fileSvgName := None;
      meanings := [];
      readings := [];
      currentMeaningLang := None;
      currentCpType := None;
      textBuffer := "";
      entries := new Batcher<ParsedKanjiEntry>(batchSize, 0);
    }

    /** The attribute loop of a `reading` start. */
    method AddReadings(attributes: seq<Attribute>)
      modifies this`readings
      ensures readings == old(readings) + NewReadings(attributes, currentLiteral)
    {
      var i := 0;
      while i < |attributes|
        invariant i <= |attributes|
        invariant readings == old(readings) + NewReadings(attributes[..i], currentLiteral)
      {
        assert attributes[..i + 1][..i] == attributes[..i];
        if attributes[i].localName == "r_type" {
          var value := attributes[i].value;
          if value == "ja_on" || value == "ja_kun" {
            readings := readings + [KanjiReading(currentLiteral, "", value)];
          }
        }
        i := i + 1;
      }
      assert attributes[..i] == attributes;
    }

    /** The START_ELEMENT branch. */
    method OnStart(name: string, attributes: seq<Attribute>)
      modifies this
      ensures State() == KanjiStep(old(State()), Start(name, attributes))
    {
      textBuffer := "";
      var tag := KanjiTagOf(name);
      if tag == Reading {
        AddReadings(attributes);
      } else if tag == Meaning {
        currentMeaningLang := LastAttributeValue(attributes, "m_lang", currentMeaningLang);
      } else if tag == CpValue {
        currentCpType := LastAttributeValue(attributes, "cp_type", currentCpType);
      }
    }

    /** CHARACTERS. */
    method OnCharacters(text: string)
      modifies this
      ensures State() == KanjiStep(old(State()), Chars(text))
    {
      textBuffer := textBuffer + text;
    }

    /** END_ELEMENT on the accumulators, for any element but `character`. */
    method ApplyEnd(tag: KanjiTag, text: string)
      requires tag != Character
      modifies this
      ensures State() == KanjiEndElement(old(State()), tag, text)
    {
      if tag == Literal {
        currentLiteral := text;
      } else if tag == StrokeCount {
        strokeCount := IntOrZero(text);
      } else if tag == Freq {
        freq := ParseInt(text);
      } else if tag == Jlpt {
        jlpt := ParseInt(text);
      } else if tag == CpValue {
        if currentCpType == Some("ucs") {
          fileSvgName := Some(SvgName(text));
        }
      } else if tag == Meaning {
        if currentMeaningLang.None? {
          meanings := meanings + [text];
        }
      } else if tag == Reading {
        if readings != [] && readings[|readings| - 1].reading == "" {
          readings := readings[|readings| - 1 := readings[|readings| - 1].(reading := text)];
        }
      }
    }

    /** The END_ELEMENT branch: a `character` end hands the record on and
        resets the per-character lists. */
    method OnEnd(name: string)
      requires entries.Valid()
      modifies this, entries
      ensures entries.Valid()
      ensures State() == KanjiStep(old(State()), End(name))
      ensures entries.items == old(entries.items) + (if IsCharacterEnd(End(name)) then [KanjiEntryOf(old(State()))] else [])
    {
      var text := Trim(textBuffer);
      var tag := KanjiTagOf(name);
      if tag == Character {
        var kanjiEntry := KanjiEntry(currentLiteral, strokeCount, freq, jlpt, meanings, fileSvgName);
        entries.Add(ParsedKanjiEntry(kanjiEntry, readings));
        meanings := [];
        readings := [];
        currentMeaningLang := None;
        currentCpType := None;
      } else {
        ApplyEnd(tag, text);
      }
      textBuffer := "";
    }

    /** One turn of the loop: `when (event)`. */
    method OnEvent(e: Event)
      requires entries.Valid()
      modifies this, entries
      ensures entries.Valid()
      ensures State() == KanjiStep(old(State()), e)
      ensures entries.items == old(entries.items) + (if IsCharacterEnd(e) then [KanjiEntryOf(old(State()))] else [])
    {
      match e {
        case Start(name, attributes) => OnStart(name, attributes);
        case Chars(text) => OnCharacters(text);
        case End(name) => OnEnd(name);
        case Other =>
      }
    }
  }

  /** The attribute loops of a `meaning` or `cp_value` start: the variable
      is assigned at every attribute with the wanted name. */
  method LastAttributeValue(attributes: seq<Attribute>, name: string, current: Option<string>)
    returns (v: Option<string>)
    ensures v == LastValue(attributes, name, current)
  {
    v := current;
    var i := 0;
    while i < |attributes|
      invariant i <= |attributes|
      invariant v == LastValue(attributes[..i], name, current)
    {
      assert attributes[..i + 1][..i] == attributes[..i];
      if attributes[i].localName == name {
        v := Some(attributes[i].value);
      }
      i := i + 1;
    }
    assert attributes[..i] == attributes;
  }

  /** `parseKanjiXMLWithStAX` after the reader is created. */
  method ParseKanji(events: seq<Event>, batchSize: int)
    returns (batches: seq<seq<ParsedKanjiEntry>>, reports: seq<Progress>)
    ensures Flatten(batches) == KanjiEntries(events)
    ensures WellBatched(batches, batchSize)
    ensures Reported(batches, reports, 0)
  {
    var builder := new KanjiRecordBuilder(batchSize);
    var i := 0;
    while i < |events|
      invariant i <= |events|
      invariant fresh(builder.entries)
      invariant builder.entries.Valid()
      invariant builder.entries.batchSize == batchSize && builder.entries.initialTotal == 0
      invariant builder.entries.items == KanjiEntriesUpTo(events, i)
      invariant builder.State() == KanjiStateAt(events, i)
    {
      builder.OnEvent(events[i]);
      i := i + 1;
    }
    builder.entries.Finish();
    batches := builder.entries.batches;
    reports := builder.entries.reports;
  }

  // ---------------------------------------------------------------------------
  // What the fold means
  // ---------------------------------------------------------------------------

  /** The text buffer holds the character data since the last tag. */
  lemma {:induction false} KanjiTextBuffer(evs: seq<Event>, n: nat)
    requires n <= |evs|
    ensures KanjiStateAt(evs, n).textBuffer == BufferAt(evs, n)
    decreases n
  {
    if n > 0 {
      KanjiTextBuffer(evs, n - 1);
      BufferStep(evs, n - 1);
    }
  }

  /** Only on and kun readings are ever recorded. */
  ghost predicate AllJapaneseReadings(rs: seq<KanjiReading>)
  {
    forall k :: 0 <= k < |rs| ==> rs[k].readingType == "ja_on" || rs[k].readingType == "ja_kun"
  }

  lemma {:induction false} NewReadingsAreJapanese(attrs: seq<Attribute>, literal: string)
    ensures AllJapaneseReadings(NewReadings(attrs, literal))
    decreases |attrs|
  {
    if attrs != [] {
      NewReadingsAreJapanese(attrs[..|attrs| - 1], literal);
    }
  }

  /** One step keeps every recorded reading's type. */
  lemma ReadingTypesStep(st: KanjiState, e: Event)
    requires AllJapaneseReadings(st.readings)
    ensures AllJapaneseReadings(KanjiStep(st, e).readings)
  {
    match e
    case Start(name, attrs) =>
      NewReadingsAreJapanese(attrs, st.currentLiteral);
    case Chars(_) =>
    case End(name) =>
      var st' := KanjiStep(st, e).readings;
      if st.readings != [] && st'!= st.readings && st' != [] {
        assert forall k :: 0 <= k < |st'| ==> st'[k].readingType == st.readings[k].readingType;
      }
    case Other =>
  }

  lemma {:induction false} ReadingsAreJapanese(evs: seq<Event>, n: nat)
    requires n <= |evs|
    ensures AllJapaneseReadings(KanjiStateAt(evs, n).readings)
    decreases n
  {
    if n > 0 {
      ReadingsAreJapanese(evs, n - 1);
      ReadingTypesStep(KanjiStateAt(evs, n - 1), evs[n - 1]);
    }
  }

  /** A `reading` end fills the text of the last reading only while that text
      is empty; a reading whose text is set is left as it is. */
  lemma ReadingEndFillsOnce(st: KanjiState)
    ensures var rs := KanjiStep(st, End("reading")).readings;
      var t := Trim(st.textBuffer);
      if st.readings != [] && st.readings[|st.readings| - 1].reading == "" then
        && |rs| == |st.readings|
        && rs[..|rs| - 1] == st.readings[..|rs| - 1]
        && rs[|rs| - 1] == st.readings[|rs| - 1].(reading := t)
      else rs == st.readings
  {
    KanjiTagOfIff("reading", Reading);
  }

  /** Until the character ends, readings are only added at the back, and the
      text of a reading, once set or once another reading follows it, never
      changes. */
  lemma ReadingsOnlyGrow(st: KanjiState, e: Event)
    requires !IsCharacterEnd(e)
    ensures var rs := KanjiStep(st, e).readings;
      && |rs| >= |st.readings|
      && forall k :: 0 <= k < |st.readings| && (k < |st.readings| - 1 || st.readings[k].reading != "") ==>
           rs[k] == st.readings[k]
  {
  }

  /** A `meaning` end keeps its text exactly when no `m_lang` has been seen
      in the current character. */
  lemma MeaningEndStep(st: KanjiState)
    ensures KanjiStep(st, End("meaning")).meanings ==
      if st.currentMeaningLang.None? then st.meanings + [Trim(st.textBuffer)] else st.meanings
  {
    KanjiTagOfIff("meaning", Meaning);
  }

  /** `currentMeaningLang` is not reset between meanings: once set it stays
      set until the character ends. */
  lemma MeaningLangSticky(st: KanjiState, e: Event)
    requires st.currentMeaningLang.Some? && e != End("character")
    ensures KanjiStep(st, e).currentMeaningLang.Some?
  {
    match e
    case Start(_, attrs) => LastValueFacts(attrs, "m_lang", st.currentMeaningLang);
    case Chars(_) =>
    case End(name) => KanjiTagOfIff(name, Character);
    case Other =>
  }

  /** One step that is not a character end keeps the meanings once a
      language is set. */
  lemma ForeignMeaningStep(st: KanjiState, e: Event)
    requires st.currentMeaningLang.Some? && e != End("character")
    ensures KanjiStep(st, e).meanings == st.meanings
  {
    if e.End? {
      KanjiTagOfIff(e.name, Character);
    }
  }

  /** A `meaning` start with an `m_lang` attribute sets the language. */
  lemma ForeignMeaningStart(st: KanjiState, attrs: seq<Attribute>)
    requires exists k :: 0 <= k < |attrs| && attrs[k].localName == "m_lang"
    ensures KanjiStep(st, Start("meaning", attrs)).currentMeaningLang.Some?
  {
    KanjiTagOfIff("meaning", Meaning);
    LastValueFacts(attrs, "m_lang", st.currentMeaningLang);
  }

  /** The step from position `n - 1` to `n` keeps the meanings and the
      language, once the language is set. */
  lemma FrozenStep(evs: seq<Event>, n: nat)
    requires 0 < n <= |evs|
    requires KanjiStateAt(evs, n - 1).currentMeaningLang.Some? && evs[n - 1] != End("character")
    ensures KanjiStateAt(evs, n).meanings == KanjiStateAt(evs, n - 1).meanings
    ensures KanjiStateAt(evs, n).currentMeaningLang.Some?
  {
    var st := KanjiStateAt(evs, n - 1);
    ForeignMeaningStep(st, evs[n - 1]);
    MeaningLangSticky(st, evs[n - 1]);
  }

  /** Once the language is set, no meaning is added before the character
      ends. */
  lemma {:induction false} MeaningsFrozen(evs: seq<Event>, i: nat, n: nat)
    requires i <= n <= |evs|
    requires KanjiStateAt(evs, i).currentMeaningLang.Some?
    requires forall j :: i <= j < n ==> evs[j] != End("character")
    ensures KanjiStateAt(evs, n).meanings == KanjiStateAt(evs, i).meanings
    ensures KanjiStateAt(evs, n).currentMeaningLang.Some?
    decreases n
  {
    if n > i {
      MeaningsFrozen(evs, i, n - 1);
      FrozenStep(evs, n);
    }
  }

  /** So after one meaning with an `m_lang` attribute, every later meaning of
      the same character is dropped, even an English one. */
  lemma NoMeaningAfterForeign(evs: seq<Event>, i: nat, n: nat)
    requires i < n <= |evs|
    requires evs[i].Start? && evs[i].name == "meaning"
    requires exists k :: 0 <= k < |evs[i].attributes| && evs[i].attributes[k].localName == "m_lang"
    requires forall j :: i < j < n ==> evs[j] != End("character")
    ensures KanjiStateAt(evs, n).meanings == KanjiStateAt(evs, i + 1).meanings
  {
    ForeignMeaningStart(KanjiStateAt(evs, i), evs[i].attributes);
    MeaningsFrozen(evs, i + 1, n);
  }

  /** A `meaning` start that carries an `m_lang` attribute. */
  predicate IsForeignMeaningStart(e: Event)
  {
    e.Start? && e.name == "meaning" && exists k :: 0 <= k < |e.attributes| && e.attributes[k].localName == "m_lang"
  }

  /** One step with no meaning language set, other than a character end or a
      foreign meaning start: the language stays unset and only a `meaning`
      end adds a meaning, its trimmed text. */
  lemma MeaningStep(st: KanjiState, e: Event)
    requires st.currentMeaningLang.None?
    requires !IsCharacterEnd(e) && !IsForeignMeaningStart(e)
    ensures KanjiStep(st, e).currentMeaningLang.None?
    ensures KanjiStep(st, e).meanings == st.meanings + (if e == End("meaning") then [Trim(st.textBuffer)] else [])
  {
    match e
    case Start(name, attrs) =>
      KanjiTagOfIff(name, Meaning);
      LastValueFacts(attrs, "m_lang", None);
    case Chars(_) =>
    case End(name) =>
      KanjiTagOfIff(name, Meaning);
      KanjiTagOfIff(name, Character);
    case Other =>
  }

  /** The meanings of the current character are the trimmed texts of its
      `meaning` elements (empty ones included), as long as none of its
      meanings so far carried an `m_lang` attribute. */
  lemma {:induction false} MeaningsSinceCharacterEnd(evs: seq<Event>, n: nat)
    requires n <= |evs|
    requires forall k :: AfterLastEnd(evs, n, "character") <= k < n ==> !IsForeignMeaningStart(evs[k])
    ensures KanjiStateAt(evs, n).meanings == AllEndTexts(evs, AfterLastEnd(evs, n, "character"), n, "meaning")
    ensures KanjiStateAt(evs, n).currentMeaningLang.None?
    decreases n
  {
    if n > 0 {
      var e := evs[n - 1];
      if e == End("character") {
        CharacterEndStep(KanjiStateAt(evs, n - 1));
      } else {
        var lo := AfterLastEnd(evs, n - 1, "character");
        assert AfterLastEnd(evs, n, "character") == lo;
        MeaningsSinceCharacterEnd(evs, n - 1);
        KanjiTextBuffer(evs, n - 1);
        if e.End? { KanjiTagOfIff(e.name, Character); }
        MeaningStep(KanjiStateAt(evs, n - 1), e);
      }
    }
  }

  /** `stroke_count` takes the parsed value, or 0 when the text is not an
      integer. */
  lemma StrokeCountStep(st: KanjiState)
    ensures var t := Trim(st.textBuffer);
      KanjiStep(st, End("stroke_count")).strokeCount == if ParseInt(t).Some? then ParseInt(t).value else 0
  {
    KanjiTagOfIff("stroke_count", StrokeCount);
  }

  /** A stroke count written in decimal, without surrounding blanks, is read
      back as that number. */
  lemma StrokeCountRoundTrip(st: KanjiState, n: int)
    requires INT_MIN <= n <= INT_MAX && st.textBuffer == IntToString(n)
    ensures KanjiStep(st, End("stroke_count")).strokeCount == n
  {
    StrokeCountStep(st);
    IntToStringTrimmed(n);
    ParseIntRoundTrip(n);
  }

  lemma IntToStringTrimmed(n: int)
    ensures Trim(IntToString(n)) == IntToString(n)
  {
    var s := IntToString(n);
    if n < 0 {
      NatToStringValue(-n);
      assert s[|s| - 1] == NatToString(-n)[|NatToString(-n)| - 1];
    } else {
      NatToStringValue(n);
    }
    assert TrimStart(s) == s;
    assert TrimEnd(s) == s;
  }

  /** The file name is set to `0<text>.svg` only when the code point type
      seen in this character is `ucs`; otherwise the previous one stays. */
  lemma CpValueStep(st: KanjiState)
    ensures KanjiStep(st, End("cp_value")).fileSvgName ==
      if st.currentCpType == Some("ucs") then Some("0" + Trim(st.textBuffer) + ".svg") else st.fileSvgName
  {
    KanjiTagOfIff("cp_value", CpValue);
  }

  /** A `character` end hands on the record as it stands, resets only the
      meanings, the readings, the meaning language and the code point type,
      and carries the literal, stroke count, frequency, JLPT level and file
      name over into the next character. */
  lemma CharacterEndStep(st: KanjiState)
    ensures var st' := KanjiStep(st, End("character"));
      && st'.meanings == [] && st'.readings == []
      && st'.currentMeaningLang == None && st'.currentCpType == None
      && st'.currentLiteral == st.currentLiteral && st'.strokeCount == st.strokeCount
      && st'.freq == st.freq && st'.jlpt == st.jlpt && st'.fileSvgName == st.fileSvgName
    ensures IsCharacterEnd(End("character"))
  {
    KanjiTagOfIff("character", Character);
  }

  /** One step on the literal: only a `literal` end sets it. */
  lemma LiteralStep(st: KanjiState, e: Event)
    ensures KanjiStep(st, e).currentLiteral ==
      if e == End("literal") then Trim(st.textBuffer) else st.currentLiteral
  {
    if e.End? {
      KanjiTagOfIff(e.name, Literal);
    }
  }

  /** The same step, on the state after `n` events. */
  lemma LiteralAt(evs: seq<Event>, n: nat)
    requires 0 < n <= |evs|
    ensures KanjiStateAt(evs, n).currentLiteral ==
      if evs[n - 1] == End("literal") then Trim(BufferAt(evs, n - 1)) else KanjiStateAt(evs, n - 1).currentLiteral
  {
    KanjiTextBuffer(evs, n - 1);
    LiteralStep(KanjiStateAt(evs, n - 1), evs[n - 1]);
  }

  /** The literal is the text of the last `literal` element of the whole
      document so far, whichever character it belonged to: a character
      without one inherits the previous character's literal. */
  lemma {:induction false} LiteralIsLastLiteral(evs: seq<Event>, n: nat)
    requires n <= |evs|
    ensures KanjiStateAt(evs, n).currentLiteral == LastEndText(evs, 0, n, "literal")
    decreases n
  {
    if n > 0 {
      LiteralIsLastLiteral(evs, n - 1);
      LiteralAt(evs, n);
    }
  }

  /** One record per `character` end, no more and no fewer. */
  lemma {:induction false} OneEntryPerCharacterEnd(evs: seq<Event>, n: nat)
    requires n <= |evs|
    ensures |KanjiEntriesUpTo(evs, n)| == CountEnds(evs, n, "character")
    decreases n
  {
    if n > 0 {
      OneEntryPerCharacterEnd(evs, n - 1);
      if evs[n - 1].End? {
        KanjiTagOfIff(evs[n - 1].name, Character);
      }
    }
  }
}
