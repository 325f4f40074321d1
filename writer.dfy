/** The writer half of the import (XmlToRoomImporter.kt): turning one batch of
    parsed records into table rows and handing them to the data-access
    objects, and the guard that skips an import whose table is already
    filled.

    The storage engine is a class, `Database`, whose insert methods append
    the rows they are given to a table and whose queries are defined on those
    tables. Auto-generated row ids are 1-based positions, as an
    auto-increment key gives them in a table that only ever grows. The row
    construction itself is either a function (the `map`/`flatMap`
    expressions) or a method with the loops the source has (the `forEach`
    blocks that fill `sensesWithExamples`, `allFields`, `fieldsMap` and
    `crossRefs`). */
module Writer {
  import opened Common
  import opened Kana
  import opened Batching
  import opened Xml
  import opened WordParser
  import K = KanjiParser

  // ---------------------------------------------------------------------------
  // The rows
  // ---------------------------------------------------------------------------

  datatype DictionaryEntryRow = DictionaryEntryRow(id: string)
  datatype KanjiRow = KanjiRow(entryId: string, kanji: string)
  datatype ReadingRow = ReadingRow(entryId: string, reading: string)

  /** The `Sense` entity: a parsed sense without its fields and examples,
      which go to tables of their own. */
  datatype SenseRow = SenseRow(
    entryId: string, pos: seq<string>, glosses: seq<string>, misc: seq<string>,
    stagk: seq<string>, stagr: seq<string>, xref: seq<string>, ant: seq<string>,
    sInf: seq<string>)

  datatype ExampleRow = ExampleRow(senseId: int, exText: string, exSentJpn: string, exSentEng: string)
  datatype SenseFieldCrossRef = SenseFieldCrossRef(senseId: int, fieldId: int)
  datatype FtsRow = FtsRow(entryId: string, kanji: string, reading: string, readingHiragana: string, glosses: string)

  // ---------------------------------------------------------------------------
  // The storage engine
  // ---------------------------------------------------------------------------

  /** The first `n` ids that `insertSenseList` hands out after `base` rows. */
  function SenseIds(base: nat, n: nat): (ids: seq<int>)
    ensures |ids| == n
    ensures forall k :: 0 <= k < n ==> ids[k] == base + k + 1
  {
    seq(n, k requires 0 <= k < n => base + k + 1)
  }

  /** `getFieldId(name)`: the id of the first row named `name`, or 0 when
      there is none, as Room reads an `Int` from an empty result. */
  function FieldIdOf(fields: seq<string>, name: string): (id: int)
    ensures 0 <= id <= |fields|
    ensures id == 0 <==> name !in fields
    ensures id > 0 ==> fields[id - 1] == name && forall k :: 0 <= k < id - 1 ==> fields[k] != name
  {
    IndexOf(fields, name) + 1
  }

  /** The tables of `DictionaryDao` and `KanjiDao`, in insertion order.
      `fieldQueries` is the log of the names `getFieldId` was asked for. */
  class Database {
    var dictionaryEntries: seq<DictionaryEntryRow>
    var kanji: seq<KanjiRow>
    var readings: seq<ReadingRow>
    var senses: seq<SenseRow>
    var examples: seq<ExampleRow>
    var fields: seq<string>
    var crossRefs: seq<SenseFieldCrossRef>
    var fts: seq<FtsRow>
    var kanjiEntries: seq<K.KanjiEntry>
    var kanjiReadings: seq<K.KanjiReading>
    ghost var fieldQueries: seq<string>

    constructor ()
      ensures dictionaryEntries == [] && kanji == [] && readings == [] && senses == []
      ensures examples == [] && fields == [] && crossRefs == [] && fts == []
      ensures kanjiEntries == [] && kanjiReadings == [] && fieldQueries == []
    {
      dictionaryEntries, kanji, readings, senses := [], [], [], [];
      examples, fields, crossRefs, fts := [], [], [], [];
      kanjiEntries, kanjiReadings, fieldQueries := [], [], [];
    }

    /** `DictionaryDao.getCount()` is positive exactly when a row was ever
        inserted (replacing a row never empties the table). */
    function HasEntries(): (b: bool)
      reads this
      ensures b <==> dictionaryEntries != []
    {
      |dictionaryEntries| > 0
    }

    /** `KanjiDao.getCount() > 0`. */
    function HasKanjiEntries(): (b: bool)
      reads this
      ensures b <==> kanjiEntries != []
    {
      |kanjiEntries| > 0
    }

    method InsertDictionaryEntries(rows: seq<DictionaryEntryRow>)
      modifies this`dictionaryEntries
      ensures dictionaryEntries == old(dictionaryEntries) + rows
    {
      dictionaryEntries := dictionaryEntries + rows;
    }

    method InsertKanjiList(rows: seq<KanjiRow>)
      modifies this`kanji
      ensures kanji == old(kanji) + rows
    {
      kanji := kanji + rows;
    }

    method InsertReadingList(rows: seq<ReadingRow>)
      modifies this`readings
      ensures readings == old(readings) + rows
    {
      readings := readings + rows;
    }

    /** `insertSenseList` returns one fresh id per sense, in input order. */
    method InsertSenseList(rows: seq<SenseRow>) returns (ids: seq<int>)
      modifies this`senses
      ensures senses == old(senses) + rows
      ensures ids == SenseIds(|old(senses)|, |rows|)
    {
      ids := SenseIds(|senses|, |rows|);
      senses := senses + rows;
    }

    method InsertExampleList(rows: seq<ExampleRow>)
      modifies this`examples
      ensures examples == old(examples) + rows
    {
      examples := examples + rows;
    }

    method GetFieldId(name: string) returns (id: int)
      modifies this`fieldQueries
      ensures id == FieldIdOf(fields, name)
      ensures fieldQueries == old(fieldQueries) + [name]
    {
      id := FieldIdOf(fields, name);
      fieldQueries := fieldQueries + [name];
    }

    /** `insertField` returns the new row's id. */
    method InsertField(name: string) returns (id: int)
      modifies this`fields
      ensures fields == old(fields) + [name]
      ensures id == |fields|
    {
      fields := fields + [name];
      id := |fields|;
    }

    method InsertSenseFieldCrossRefs(rows: seq<SenseFieldCrossRef>)
      modifies this`crossRefs
      ensures crossRefs == old(crossRefs) + rows
    {
      crossRefs := crossRefs + rows;
    }

    method InsertFtsEntries(rows: seq<FtsRow>)
      modifies this`fts
      ensures fts == old(fts) + rows
    {
      fts := fts + rows;
    }

    method InsertKanjiEntries(rows: seq<K.KanjiEntry>)
      modifies this`kanjiEntries
      ensures kanjiEntries == old(kanjiEntries) + rows
    {
      kanjiEntries := kanjiEntries + rows;
    }

    method InsertKanjiReadings(rows: seq<K.KanjiReading>)
      modifies this`kanjiReadings
      ensures kanjiReadings == old(kanjiReadings) + rows
    {
      kanjiReadings := kanjiReadings + rows;
    }
  }

  // ---------------------------------------------------------------------------
  // Entry, kanji and reading rows
  // ---------------------------------------------------------------------------

  function EntryRowOf(e: ParsedEntry): DictionaryEntryRow
  {
    DictionaryEntryRow(e.id)
  }

  function EntryRows(entries: seq<ParsedEntry>): seq<DictionaryEntryRow>
  {
    Map(entries, EntryRowOf)
  }

  function EntryKanjiRows(e: ParsedEntry): (r: seq<KanjiRow>)
  {
    seq(|e.kanjiList|, j requires 0 <= j < |e.kanjiList| => KanjiRow(e.id, e.kanjiList[j]))
  }

  function EntryReadingRows(e: ParsedEntry): (r: seq<ReadingRow>)
  {
    seq(|e.readingList|, j requires 0 <= j < |e.readingList| => ReadingRow(e.id, e.readingList[j]))
  }

  function KanjiRows(entries: seq<ParsedEntry>): seq<KanjiRow>
  {
    FlatMap(entries, EntryKanjiRows)
  }

  function ReadingRows(entries: seq<ParsedEntry>): seq<ReadingRow>
  {
    FlatMap(entries, EntryReadingRows)
  }

  /** One entry row per entry, carrying its id, in batch order. */
  lemma EntryRowsAreIds(entries: seq<ParsedEntry>)
    ensures |EntryRows(entries)| == |entries|
    ensures forall k :: 0 <= k < |entries| ==> EntryRows(entries)[k].id == entries[k].id
  {
    MapAt(entries, EntryRowOf);
  }

  /** A kanji row exists exactly for every kanji spelling of every entry,
      under that entry's id. */
  lemma KanjiRowsMember(entries: seq<ParsedEntry>, id: string, kanji: string)
    ensures KanjiRow(id, kanji) in KanjiRows(entries) <==>
      exists k :: 0 <= k < |entries| && entries[k].id == id && kanji in entries[k].kanjiList
  {
    var ms := Map(entries, EntryKanjiRows);
    MapAt(entries, EntryKanjiRows);
    FlattenMember(ms, KanjiRow(id, kanji));
    if KanjiRow(id, kanji) in KanjiRows(entries) {
      var k :| 0 <= k < |ms| && KanjiRow(id, kanji) in ms[k];
      var j :| 0 <= j < |entries[k].kanjiList| && EntryKanjiRows(entries[k])[j] == KanjiRow(id, kanji);
      assert entries[k].kanjiList[j] == kanji;
    }
    if exists k :: 0 <= k < |entries| && entries[k].id == id && kanji in entries[k].kanjiList {
      var k :| 0 <= k < |entries| && entries[k].id == id && kanji in entries[k].kanjiList;
      var j :| 0 <= j < |entries[k].kanjiList| && entries[k].kanjiList[j] == kanji;
      assert EntryKanjiRows(entries[k])[j] == KanjiRow(id, kanji);
      assert KanjiRow(id, kanji) in ms[k];
    }
  }

  /** A reading row exists exactly for every reading of every entry, under
      that entry's id. */
  lemma ReadingRowsMember(entries: seq<ParsedEntry>, id: string, reading: string)
    ensures ReadingRow(id, reading) in ReadingRows(entries) <==>
      exists k :: 0 <= k < |entries| && entries[k].id == id && reading in entries[k].readingList
  {
    var ms := Map(entries, EntryReadingRows);
    MapAt(entries, EntryReadingRows);
    FlattenMember(ms, ReadingRow(id, reading));
    if ReadingRow(id, reading) in ReadingRows(entries) {
      var k :| 0 <= k < |ms| && ReadingRow(id, reading) in ms[k];
      var j :| 0 <= j < |entries[k].readingList| && EntryReadingRows(entries[k])[j] == ReadingRow(id, reading);
      assert entries[k].readingList[j] == reading;
    }
    if exists k :: 0 <= k < |entries| && entries[k].id == id && reading in entries[k].readingList {
      var k :| 0 <= k < |entries| && entries[k].id == id && reading in entries[k].readingList;
      var j :| 0 <= j < |entries[k].readingList| && entries[k].readingList[j] == reading;
      assert EntryReadingRows(entries[k])[j] == ReadingRow(id, reading);
      assert ReadingRow(id, reading) in ms[k];
    }
  }

  // ---------------------------------------------------------------------------
  // Senses, examples and fields
  // ---------------------------------------------------------------------------

  /** An entry's senses, each with the entry's id. */
  function EntrySenses(e: ParsedEntry): (r: seq<(string, ParsedSense)>)
  {
    seq(|e.senses|, j requires 0 <= j < |e.senses| => (e.id, e.senses[j]))
  }

  /** The batch-wide sense list, in the order the nested `forEach` visits it. */
  function SenseList(entries: seq<ParsedEntry>): seq<(string, ParsedSense)>
  {
    FlatMap(entries, EntrySenses)
  }

  function SenseRowOf(entryId: string, s: ParsedSense): SenseRow
  {
    SenseRow(entryId, s.pos, s.glosses, s.misc, s.stagk, s.stagr, s.xref, s.ant, s.sInf)
  }

  /** The element of `sensesWithExamples` for one sense. */
  function SenseWithExamples(p: (string, ParsedSense)): (SenseRow, seq<ParsedExample>)
  {
    (SenseRowOf(p.0, p.1), p.1.examples)
  }

  function SensesWithExamples(ps: seq<(string, ParsedSense)>): seq<(SenseRow, seq<ParsedExample>)>
  {
    Map(ps, SenseWithExamples)
  }

  /** `sensesWithExamples.map { it.first }`. */
  function SenseEntities(sw: seq<(SenseRow, seq<ParsedExample>)>): (r: seq<SenseRow>)
    ensures |r| == |sw|
  {
    seq(|sw|, k requires 0 <= k < |sw| => sw[k].0)
  }

  /** One `allFields` pair per field name of the sense at position `index`. */
  function FieldsAt(index: int, names: seq<string>): (r: seq<(int, string)>)
    ensures |r| == |names|
  {
    seq(|names|, j requires 0 <= j < |names| => (index, names[j]))
  }

  /** `allFields`: every field name of every sense, paired with the sense's
      position in the batch-wide sense list. */
  function FieldPairs(ps: seq<(string, ParsedSense)>): (r: seq<(int, string)>)
    ensures forall k :: 0 <= k < |r| ==> 0 <= r[k].0 < |ps|
    decreases |ps|
  {
    if ps == [] then []
    else FieldPairs(ps[..|ps| - 1]) + FieldsAt(|ps| - 1, ps[|ps| - 1].1.field)
  }

  /** A pair is in `allFields` exactly when its name is a field of the sense
      at its position. */
  lemma {:induction false} FieldPairsMember(ps: seq<(string, ParsedSense)>, i: int, name: string)
    ensures (i, name) in FieldPairs(ps) <==> 0 <= i < |ps| && name in ps[i].1.field
    decreases |ps|
  {
    if ps != [] {
      var n := |ps| - 1;
      FieldPairsMember(ps[..n], i, name);
      var last := FieldsAt(n, ps[n].1.field);
      if (i, name) in last {
        var j :| 0 <= j < |last| && last[j] == (i, name);
        assert ps[n].1.field[j] == name;
      }
      if i == n && name in ps[n].1.field {
        var j :| 0 <= j < |ps[n].1.field| && ps[n].1.field[j] == name;
        assert last[j] == (i, name);
      }
      if 0 <= i < n { assert ps[..n][i] == ps[i]; }
    }
  }

  /** The field names of `allFields`, in order. */
  function FieldNames(fs: seq<(int, string)>): (r: seq<string>)
    ensures |r| == |fs|
    decreases |fs|
  {
    if fs == [] then [] else FieldNames(fs[..|fs| - 1]) + [fs[|fs| - 1].1]
  }

  /** Every name of `allFields` is a name of `FieldNames`, at the same position. */
  lemma {:induction false} FieldNamesAt(fs: seq<(int, string)>, k: int)
    requires 0 <= k < |fs|
    ensures FieldNames(fs)[k] == fs[k].1
    decreases |fs|
  {
    if k < |fs| - 1 {
      FieldNamesAt(fs[..|fs| - 1], k);
    }
  }


  lemma FieldPairsAppend(ps: seq<(string, ParsedSense)>, p: (string, ParsedSense))
    ensures FieldPairs(ps + [p]) == FieldPairs(ps) + FieldsAt(|ps|, p.1.field)
  {
    assert (ps + [p])[..|ps|] == ps;
  }

  /** The body of the inner `forEach`: one `sensesWithExamples` element for
      the sense, then one `allFields` pair per field name, paired with the
      position of that element. */
  method AddSense(sensesWithExamples: seq<(SenseRow, seq<ParsedExample>)>, allFields: seq<(int, string)>,
                  entryId: string, parsedSense: ParsedSense)
    returns (sw: seq<(SenseRow, seq<ParsedExample>)>, af: seq<(int, string)>)
    ensures sw == sensesWithExamples + [SenseWithExamples((entryId, parsedSense))]
    ensures af == allFields + FieldsAt(|sensesWithExamples|, parsedSense.field)
  {
    sw := sensesWithExamples + [(SenseRowOf(entryId, parsedSense), parsedSense.examples)];
    af := allFields;
    var f := 0;
    while f < |parsedSense.field|
      invariant 0 <= f <= |parsedSense.field|
      invariant af == allFields + FieldsAt(|sw| - 1, parsedSense.field[..f])
    {
      assert FieldsAt(|sw| - 1, parsedSense.field[..f + 1]) ==
        FieldsAt(|sw| - 1, parsedSense.field[..f]) + [(|sw| - 1, parsedSense.field[f])];
      af := af + [(|sw| - 1, parsedSense.field[f])];
      f := f + 1;
    }
    assert parsedSense.field[..f] == parsedSense.field;
  }

  /** The nested `entries.forEach { entry -> entry.senses.forEach { ... } }`
      that fills `sensesWithExamples` and `allFields`. */
  method CollectSenses(entries: seq<ParsedEntry>)
    returns (sensesWithExamples: seq<(SenseRow, seq<ParsedExample>)>, allFields: seq<(int, string)>)
    ensures sensesWithExamples == SensesWithExamples(SenseList(entries))
    ensures allFields == FieldPairs(SenseList(entries))
  {
    sensesWithExamples, allFields := [], [];
    ghost var ps: seq<(string, ParsedSense)> := [];
    var i := 0;
    while i < |entries|
      invariant 0 <= i <= |entries|
      invariant ps == SenseList(entries[..i])
      invariant sensesWithExamples == SensesWithExamples(ps)
      invariant allFields == FieldPairs(ps)
    {
      var entry := entries[i];
      ghost var before := ps;
      var j := 0;
      while j < |entry.senses|
        invariant 0 <= j <= |entry.senses|
        invariant ps == before + EntrySenses(entry)[..j]
        invariant sensesWithExamples == SensesWithExamples(ps)
        invariant allFields == FieldPairs(ps)
      {
        var p := (entry.id, entry.senses[j]);
        MapAppend(ps, p, SenseWithExamples);
        FieldPairsAppend(ps, p);
        sensesWithExamples, allFields := AddSense(sensesWithExamples, allFields, entry.id, entry.senses[j]);
        assert EntrySenses(entry)[..j + 1] == EntrySenses(entry)[..j] + [p];
        ps := ps + [p];
        j := j + 1;
      }
      assert EntrySenses(entry)[..j] == EntrySenses(entry);
      assert entries[..i + 1] == entries[..i] + [entry];
      FlatMapAppend(entries[..i], entry, EntrySenses);
      i := i + 1;
    }
    assert entries[..i] == entries;
  }

  function ExampleRowOf(senseId: int, ex: ParsedExample): ExampleRow
  {
    ExampleRow(senseId, ex.exText, ex.exSentJpn, ex.exSentEng)
  }

  function ExamplesFor(senseId: int, exs: seq<ParsedExample>): (r: seq<ExampleRow>)
    ensures |r| == |exs|
  {
    seq(|exs|, j requires 0 <= j < |exs| => ExampleRowOf(senseId, exs[j]))
  }

  /** `sensesWithExamples.flatMapIndexed`: the examples of the sense at
      position `index` are given `senseIds[index]`. */
  function ExampleRows(sw: seq<(SenseRow, seq<ParsedExample>)>, senseIds: seq<int>): seq<ExampleRow>
    requires |senseIds| == |sw|
    decreases |sw|
  {
    if sw == [] then []
    else
      var n := |sw| - 1;
      ExampleRows(sw[..n], senseIds[..n]) + ExamplesFor(senseIds[n], sw[n].1)
  }

  /** An example row exists exactly for every example of every sense, and it
      carries the id handed out for that sense's position. */
  lemma {:induction false} ExampleRowsLinked(sw: seq<(SenseRow, seq<ParsedExample>)>, senseIds: seq<int>, r: ExampleRow)
    requires |senseIds| == |sw|
    ensures r in ExampleRows(sw, senseIds) <==>
      exists i, ex :: 0 <= i < |sw| && ex in sw[i].1 && r == ExampleRowOf(senseIds[i], ex)
    decreases |sw|
  {
    if sw != [] {
      var n := |sw| - 1;
      ExampleRowsLinked(sw[..n], senseIds[..n], r);
      var last := ExamplesFor(senseIds[n], sw[n].1);
      if r in ExampleRows(sw[..n], senseIds[..n]) {
        var i, ex :| 0 <= i < n && ex in sw[..n][i].1 && r == ExampleRowOf(senseIds[..n][i], ex);
        assert sw[i] == sw[..n][i] && senseIds[i] == senseIds[..n][i];
      } else if r in last {
        var j :| 0 <= j < |last| && last[j] == r;
        assert sw[n].1[j] in sw[n].1;
      }
      if exists i, ex :: 0 <= i < |sw| && ex in sw[i].1 && r == ExampleRowOf(senseIds[i], ex) {
        var i, ex :| 0 <= i < |sw| && ex in sw[i].1 && r == ExampleRowOf(senseIds[i], ex);
        if i < n {
          assert sw[..n][i] == sw[i] && senseIds[..n][i] == senseIds[i];
        } else {
          var j :| 0 <= j < |sw[n].1| && sw[n].1[j] == ex;
          assert last[j] == r;
        }
      }
    }
  }

  /** The cross references the `allFields` loop produces: each field
      occurrence links its sense's id with the id of the first field row of
      that name. */
  function CrossRefRows(allFields: seq<(int, string)>, senseIds: seq<int>, fields: seq<string>): (r: seq<SenseFieldCrossRef>)
    requires PositionsInRange(allFields, senseIds)
    ensures |r| == |allFields|
  {
    seq(|allFields|, k requires 0 <= k < |allFields| =>
      SenseFieldCrossRef(senseIds[allFields[k].0], FieldIdOf(fields, allFields[k].1)))
  }

  /** What the `allFields` loop reads and changes besides `crossRefs`: the
      fields table, the lookup log and `fieldsMap`. */
  datatype FieldCache = FieldCache(fields: seq<string>, queries: seq<string>, fieldsMap: map<string, int>)

  /** `fieldsMap.getOrPut(fieldName) { dao.getFieldId(fieldName).takeIf { it != 0 }
      ?: dao.insertField(Field(name = fieldName)).toInt() }`. */
  function GetOrPut(c: FieldCache, name: string): (r: FieldCache)
    ensures name in r.fieldsMap
  {
    if name in c.fieldsMap then c
    else
      var found := FieldIdOf(c.fields, name);
      if found != 0 then FieldCache(c.fields, c.queries + [name], c.fieldsMap[name := found])
      else FieldCache(c.fields + [name], c.queries + [name], c.fieldsMap[name := |c.fields| + 1])
  }

  /** What a lookup adds to the tables: a query exactly when the name is not
      cached, and a field row exactly when the name is neither cached nor
      already stored. */
  lemma GetOrPutAdds(c: FieldCache, name: string)
    ensures GetOrPut(c, name).queries == c.queries + (if name in c.fieldsMap then [] else [name])
    ensures GetOrPut(c, name).fields == c.fields + (if name in c.fieldsMap || name in c.fields then [] else [name])
  {
    if name in c.fieldsMap {
      assert c.queries + [] == c.queries;
      assert c.fields + [] == c.fields;
    } else if name in c.fields {
      assert c.fields + [] == c.fields;
    }
  }

  /** A lookup after the names `names` have been met extends the queries as
      `distinct` extends its result. */
  lemma GetOrPutQueriesStep(prev: FieldCache, x: string, names: seq<string>, q0: seq<string>)
    requires forall y :: y in prev.fieldsMap <==> y in names
    requires prev.queries == q0 + DistinctFrom(names, {})
    ensures GetOrPut(prev, x).queries == q0 + DistinctFrom(names + [x], {})
  {
    GetOrPutAdds(prev, x);
    DistinctFromAppend(names, {}, x);
    AppendAssoc(q0, DistinctFrom(names, {}), if x in names then [] else [x]);
  }

  /** A lookup after the names `names` have been met extends the fields
      table as `distinct` extends its result, leaving out the names stored
      before the batch. */
  lemma GetOrPutFieldsStep(prev: FieldCache, x: string, names: seq<string>, f0: seq<string>, existing: set<string>)
    requires forall y :: y in prev.fieldsMap <==> y in names
    requires forall y :: y in existing <==> y in f0
    requires prev.fields == f0 + DistinctFrom(names, existing)
    ensures GetOrPut(prev, x).fields == f0 + DistinctFrom(names + [x], existing)
  {
    GetOrPutAdds(prev, x);
    DistinctFromAppend(names, existing, x);
    assert (x in prev.fieldsMap || x in prev.fields) <==> (x in existing || x in names);
    AppendAssoc(f0, DistinctFrom(names, existing), if x in existing || x in names then [] else [x]);
  }

  /** Every sense position of `allFields` has an id. */
  predicate PositionsInRange(allFields: seq<(int, string)>, senseIds: seq<int>)
  {
    forall k :: 0 <= k < |allFields| ==> 0 <= allFields[k].0 < |senseIds|
  }

  /** `senseIds[i]`. The pairs of `allFields` only ever name positions of
      the list (see `PositionsInRange`), where this is the list's element;
      0 stands in for the positions that never occur. */
  function IdAt(senseIds: seq<int>, i: int): (id: int)
    ensures 0 <= i < |senseIds| ==> id == senseIds[i]
  {
    if 0 <= i < |senseIds| then senseIds[i] else 0
  }

  /** The `allFields` loop over the given pairs, from the cache it starts with. */
  function LinkFold(init: FieldCache, allFields: seq<(int, string)>, senseIds: seq<int>)
    : (r: (FieldCache, seq<SenseFieldCrossRef>))
    decreases |allFields|
  {
    if allFields == [] then (init, [])
    else
      var n := |allFields| - 1;
      var prev := LinkFold(init, allFields[..n], senseIds);
      var c := GetOrPut(prev.0, allFields[n].1);
      (c, prev.1 + [SenseFieldCrossRef(IdAt(senseIds, allFields[n].0), c.fieldsMap[allFields[n].1])])
  }

  /** `fieldsMap` agrees with the fields table: every name it holds has a row,
      and it maps the name to the first such row. */
  ghost predicate MapMatchesTable(fieldsMap: map<string, int>, fields: seq<string>)
  {
    forall n :: n in fieldsMap ==> n in fields && fieldsMap[n] == FieldIdOf(fields, n)
  }

  /** A lookup keeps `fieldsMap` in agreement with the table: an inserted row
      is the first of its name, and the rows already there keep their ids. */
  lemma GetOrPutMatches(c: FieldCache, name: string)
    requires MapMatchesTable(c.fieldsMap, c.fields)
    ensures MapMatchesTable(GetOrPut(c, name).fieldsMap, GetOrPut(c, name).fields)
    ensures forall x :: x in c.fields ==> FieldIdOf(GetOrPut(c, name).fields, x) == FieldIdOf(c.fields, x)
  {
    var r := GetOrPut(c, name);
    IndexOfAppend(c.fields, name, name);
    forall x | x in c.fields ensures FieldIdOf(r.fields, x) == FieldIdOf(c.fields, x) {
      IndexOfAppend(c.fields, name, x);
    }
  }

  /** Over a batch that starts with an empty `fieldsMap`, the map holds
      exactly the names met so far, each with the id of its first row. */
  lemma {:induction false} LinkFoldMap(init: FieldCache, allFields: seq<(int, string)>, senseIds: seq<int>)
    requires init.fieldsMap == map[]
    ensures var c := LinkFold(init, allFields, senseIds).0;
      && (forall x :: x in c.fieldsMap <==> x in FieldNames(allFields))
      && MapMatchesTable(c.fieldsMap, c.fields)
    decreases |allFields|
  {
    if allFields != [] {
      var n := |allFields| - 1;
      LinkFoldMap(init, allFields[..n], senseIds);
      GetOrPutMatches(LinkFold(init, allFields[..n], senseIds).0, allFields[n].1);
    }
  }

  /** The fields table gains, in first-occurrence order, every name of the
      batch it did not hold. */
  lemma {:induction false} LinkFoldFields(init: FieldCache, existing: set<string>,
                                          allFields: seq<(int, string)>, senseIds: seq<int>)
    requires init.fieldsMap == map[]
    requires forall x :: x in existing <==> x in init.fields
    ensures LinkFold(init, allFields, senseIds).0.fields == init.fields + DistinctFrom(FieldNames(allFields), existing)
    decreases |allFields|
  {
    if allFields != [] {
      var n := |allFields| - 1;
      var prefix, x := allFields[..n], allFields[n].1;
      var prev := LinkFold(init, prefix, senseIds).0;
      LinkFoldFields(init, existing, prefix, senseIds);
      LinkFoldMap(init, prefix, senseIds);
      assert LinkFold(init, allFields, senseIds).0 == GetOrPut(prev, x);
      assert FieldNames(allFields) == FieldNames(prefix) + [x];
      GetOrPutFieldsStep(prev, x, FieldNames(prefix), init.fields, existing);
    }
  }

  /** Each name of the batch is looked up once, the first time it is met. */
  lemma {:induction false} LinkFoldQueries(init: FieldCache, allFields: seq<(int, string)>, senseIds: seq<int>)
    requires init.fieldsMap == map[]
    ensures LinkFold(init, allFields, senseIds).0.queries == init.queries + DistinctFrom(FieldNames(allFields), {})
    decreases |allFields|
  {
    if allFields != [] {
      var n := |allFields| - 1;
      var prefix, x := allFields[..n], allFields[n].1;
      var prev := LinkFold(init, prefix, senseIds).0;
      LinkFoldQueries(init, prefix, senseIds);
      LinkFoldMap(init, prefix, senseIds);
      assert LinkFold(init, allFields, senseIds).0 == GetOrPut(prev, x);
      assert FieldNames(allFields) == FieldNames(prefix) + [x];
      GetOrPutQueriesStep(prev, x, FieldNames(prefix), init.queries);
    }
  }

  /** Every cross reference links the sense's id with the first field row of
      its name in the final table. */
  lemma {:induction false} LinkFoldCrossRefs(init: FieldCache, allFields: seq<(int, string)>, senseIds: seq<int>)
    requires init.fieldsMap == map[]
    ensures var r := LinkFold(init, allFields, senseIds);
      && |r.1| == |allFields|
      && forall k :: 0 <= k < |allFields| ==>
        allFields[k].1 in r.0.fields &&
        r.1[k] == SenseFieldCrossRef(IdAt(senseIds, allFields[k].0), FieldIdOf(r.0.fields, allFields[k].1))
    decreases |allFields|
  {
    if allFields != [] {
      var n := |allFields| - 1;
      var prefix, x := allFields[..n], allFields[n].1;
      var prev := LinkFold(init, prefix, senseIds);
      var r := LinkFold(init, allFields, senseIds);
      LinkFoldCrossRefs(init, prefix, senseIds);
      LinkFoldMap(init, prefix, senseIds);
      GetOrPutMatches(prev.0, x);
      assert r.0 == GetOrPut(prev.0, x);
      assert r.1 == prev.1 + [SenseFieldCrossRef(IdAt(senseIds, allFields[n].0), r.0.fieldsMap[x])];
      forall k | 0 <= k < |allFields|
        ensures allFields[k].1 in r.0.fields
        ensures r.1[k] == SenseFieldCrossRef(IdAt(senseIds, allFields[k].0), FieldIdOf(r.0.fields, allFields[k].1))
      {
        if k < n {
          assert prefix[k] == allFields[k];
          assert r.1[k] == prev.1[k];
        }
      }
    }
  }

  /** `fieldsMap.getOrPut` against the tables: the lookup and the insert
      happen only for a name the map does not hold yet. */
  method GetOrPutField(db: Database, fieldsMap: map<string, int>, fieldName: string)
    returns (fieldId: int, newMap: map<string, int>)
    modifies db`fields, db`fieldQueries
    ensures var c := GetOrPut(FieldCache(old(db.fields), old(db.fieldQueries), fieldsMap), fieldName);
      && db.fields == c.fields && db.fieldQueries == c.queries && newMap == c.fieldsMap
      && fieldId == c.fieldsMap[fieldName]
  {
    if fieldName in fieldsMap {
      fieldId := fieldsMap[fieldName];
      newMap := fieldsMap;
      return;
    }
    var found := db.GetFieldId(fieldName);
    if found != 0 {
      fieldId := found;
    } else {
      fieldId := db.InsertField(fieldName);
    }
    newMap := fieldsMap[fieldName := fieldId];
  }

  /** `allFields.forEach { (senseIndex, fieldName) -> ... }`, one cross
      reference per field occurrence, proved to compute `LinkFold`. */
  method LinkFields(db: Database, allFields: seq<(int, string)>, senseIds: seq<int>)
    returns (crossRefs: seq<SenseFieldCrossRef>)
    requires PositionsInRange(allFields, senseIds)
    modifies db`fields, db`fieldQueries
    ensures var r := LinkFold(FieldCache(old(db.fields), old(db.fieldQueries), map[]), allFields, senseIds);
      db.fields == r.0.fields && db.fieldQueries == r.0.queries && crossRefs == r.1
  {
    ghost var init := FieldCache(db.fields, db.fieldQueries, map[]);
    var fieldsMap: map<string, int> := map[];
    crossRefs := [];
    var i := 0;
    while i < |allFields|
      invariant 0 <= i <= |allFields|
      invariant (FieldCache(db.fields, db.fieldQueries, fieldsMap), crossRefs) == LinkFold(init, allFields[..i], senseIds)
    {
      var senseIndex := allFields[i].0;
      var fieldName := allFields[i].1;
      var senseId := senseIds[senseIndex];
      var fieldId;
      fieldId, fieldsMap := GetOrPutField(db, fieldsMap, fieldName);
      crossRefs := crossRefs + [SenseFieldCrossRef(senseId, fieldId)];
      assert allFields[..i + 1][..i] == allFields[..i];
      i := i + 1;
    }
    assert allFields[..i] == allFields;
  }

  /** What the `allFields` loop leaves behind, in terms of the batch alone. */
  lemma LinkFieldsMeaning(fields0: seq<string>, queries0: seq<string>, allFields: seq<(int, string)>, senseIds: seq<int>)
    requires PositionsInRange(allFields, senseIds)
    ensures var r := LinkFold(FieldCache(fields0, queries0, map[]), allFields, senseIds);
      && r.0.fields == fields0 + DistinctFrom(FieldNames(allFields), set x | x in fields0)
      && r.0.queries == queries0 + Distinct(FieldNames(allFields))
      && (forall k :: 0 <= k < |allFields| ==> allFields[k].1 in r.0.fields)
      && r.1 == CrossRefRows(allFields, senseIds, r.0.fields)
  {
    var init := FieldCache(fields0, queries0, map[]);
    LinkFoldFields(init, (set x | x in fields0), allFields, senseIds);
    LinkFoldQueries(init, allFields, senseIds);
    LinkFoldCrossRefs(init, allFields, senseIds);
  }

  // ---------------------------------------------------------------------------
  // Full-text rows
  // ---------------------------------------------------------------------------

  function SenseGlosses(s: ParsedSense): seq<string>
  {
    s.glosses
  }

  /** The `DictionaryFTS` row of one entry. `tokenize` stands for
      `tokenizeJapaneseText`. */
  function FtsRowOf(e: ParsedEntry, tokenize: string -> string): FtsRow
  {
    FtsRow(
      e.id,
      JoinToString(Map(e.kanjiList, tokenize), " "),
      JoinToString(Map(e.readingList, tokenize), " "),
      JoinToString(Map(Map(e.readingList, ConvertKatakanaToHiragana), tokenize), " "),
      JoinToString(FlatMap(e.senses, SenseGlosses), " "))
  }

  function FtsRows(entries: seq<ParsedEntry>, tokenize: string -> string): (r: seq<FtsRow>)
    ensures |r| == |entries|
    ensures forall k :: 0 <= k < |r| ==> r[k].entryId == entries[k].id
  {
    seq(|entries|, k requires 0 <= k < |entries| => FtsRowOf(entries[k], tokenize))
  }

  /** Rows of consecutive batches are the rows of the whole, so the table
      ends up with exactly one full-text row per entry, in entry order. */
  lemma FtsRowsConcat(a: seq<ParsedEntry>, b: seq<ParsedEntry>, tokenize: string -> string)
    ensures FtsRows(a + b, tokenize) == FtsRows(a, tokenize) + FtsRows(b, tokenize)
  {
    assert FtsRows(a + b, tokenize) == FtsRows(a, tokenize) + FtsRows(b, tokenize);
  }

  /** The hiragana column is the reading column computed on hiragana
      readings, and converting the readings again changes nothing. */
  lemma {:induction false} FtsHiraganaOfConverted(e: ParsedEntry, tokenize: string -> string)
    ensures var c := e.(readingList := Map(e.readingList, ConvertKatakanaToHiragana));
      && FtsRowOf(c, tokenize).reading == FtsRowOf(e, tokenize).readingHiragana
      && FtsRowOf(c, tokenize).readingHiragana == FtsRowOf(e, tokenize).readingHiragana
  {
    var conv := Map(e.readingList, ConvertKatakanaToHiragana);
    MapAt(e.readingList, ConvertKatakanaToHiragana);
    MapAt(conv, ConvertKatakanaToHiragana);
    forall k | 0 <= k < |conv| ensures ConvertKatakanaToHiragana(conv[k]) == conv[k] {
      ConvertIdempotent(e.readingList[k]);
    }
    assert Map(conv, ConvertKatakanaToHiragana) == conv;
  }

  /** With no convertible katakana in any reading, both reading columns agree. */
  lemma FtsHiraganaWithoutKatakana(e: ParsedEntry, tokenize: string -> string)
    requires forall k, j :: 0 <= k < |e.readingList| && 0 <= j < |e.readingList[k]| ==>
      !IsConvertibleKatakana(e.readingList[k][j])
    ensures FtsRowOf(e, tokenize).readingHiragana == FtsRowOf(e, tokenize).reading
  {
    var conv := Map(e.readingList, ConvertKatakanaToHiragana);
    MapAt(e.readingList, ConvertKatakanaToHiragana);
    forall k | 0 <= k < |conv| ensures conv[k] == e.readingList[k] {
      ConvertPointwise(e.readingList[k]);
    }
    assert conv == e.readingList;
  }

  /** The gloss column of an entry whose senses come in two groups that
      both have glosses joins the two groups' columns with one space. */
  lemma FtsGlossesSplit(e: ParsedEntry, s1: seq<ParsedSense>, s2: seq<ParsedSense>, tokenize: string -> string)
    requires e.senses == s1 + s2
    requires FlatMap(s1, SenseGlosses) != [] && FlatMap(s2, SenseGlosses) != []
    ensures FtsRowOf(e, tokenize).glosses ==
      FtsRowOf(e.(senses := s1), tokenize).glosses + " " + FtsRowOf(e.(senses := s2), tokenize).glosses
  {
    FlatMapConcat(s1, s2, SenseGlosses);
    JoinToStringConcat(FlatMap(s1, SenseGlosses), FlatMap(s2, SenseGlosses), " ");
  }

  // ---------------------------------------------------------------------------
  // insertEntriesToDatabase
  // ---------------------------------------------------------------------------

  /** The entry, kanji and reading rows of one batch. */
  method InsertEntryRows(db: Database, entries: seq<ParsedEntry>)
    modifies db`dictionaryEntries, db`kanji, db`readings
    ensures db.dictionaryEntries == old(db.dictionaryEntries) + EntryRows(entries)
    ensures db.kanji == old(db.kanji) + KanjiRows(entries)
    ensures db.readings == old(db.readings) + ReadingRows(entries)
  {
    db.InsertDictionaryEntries(EntryRows(entries));
    db.InsertKanjiList(KanjiRows(entries));
    db.InsertReadingList(ReadingRows(entries));
  }

  /** The sense-side tables after one batch, given the tables before it:
      one sense row per parsed sense; the examples of each sense linked to the
      id its row receives; each field name not yet in the fields table added
      once, in first-occurrence order; one lookup per distinct name; and one
      cross reference per field occurrence, linking the sense's id with the
      first row of the field's name. */
  ghost predicate SenseTablesAfter(entries: seq<ParsedEntry>,
                                   senses0: seq<SenseRow>, examples0: seq<ExampleRow>, fields0: seq<string>,
                                   queries0: seq<string>, crossRefs0: seq<SenseFieldCrossRef>,
                                   senses: seq<SenseRow>, examples: seq<ExampleRow>, fields: seq<string>,
                                   queries: seq<string>, crossRefs: seq<SenseFieldCrossRef>)
  {
    var ps := SenseList(entries);
    var sw := SensesWithExamples(ps);
    var ids := SenseIds(|senses0|, |ps|);
    var fp := FieldPairs(ps);
    && senses == senses0 + SenseEntities(sw)
    && examples == examples0 + ExampleRows(sw, ids)
    && fields == fields0 + DistinctFrom(FieldNames(fp), set x | x in fields0)
    && queries == queries0 + Distinct(FieldNames(fp))
    && crossRefs == crossRefs0 + CrossRefRows(fp, ids, fields)
  }

  /** The sense, example, field and cross-reference rows of one batch. */
  method InsertSenseRows(db: Database, entries: seq<ParsedEntry>)
    modifies db`senses, db`examples, db`fields, db`fieldQueries, db`crossRefs
    ensures SenseTablesAfter(entries, old(db.senses), old(db.examples), old(db.fields), old(db.fieldQueries),
                             old(db.crossRefs), db.senses, db.examples, db.fields, db.fieldQueries, db.crossRefs)
  {
    var sensesWithExamples, allFields := CollectSenses(entries);
    var senseIds := db.InsertSenseList(SenseEntities(sensesWithExamples));
    db.InsertExampleList(ExampleRows(sensesWithExamples, senseIds));
    LinkFieldsMeaning(db.fields, db.fieldQueries, allFields, senseIds);
    var crossRefs := LinkFields(db, allFields, senseIds);
    db.InsertSenseFieldCrossRefs(crossRefs);
  }

  /** One batch of word entries, inside one transaction. */
  method InsertEntries(db: Database, entries: seq<ParsedEntry>, tokenize: string -> string)
    modifies db`dictionaryEntries, db`kanji, db`readings, db`senses, db`examples, db`fields, db`fieldQueries,
             db`crossRefs, db`fts
    ensures db.dictionaryEntries == old(db.dictionaryEntries) + EntryRows(entries)
    ensures db.kanji == old(db.kanji) + KanjiRows(entries)
    ensures db.readings == old(db.readings) + ReadingRows(entries)
    ensures SenseTablesAfter(entries, old(db.senses), old(db.examples), old(db.fields), old(db.fieldQueries),
                             old(db.crossRefs), db.senses, db.examples, db.fields, db.fieldQueries, db.crossRefs)
    ensures db.fts == old(db.fts) + FtsRows(entries, tokenize)
    ensures db.kanjiEntries == old(db.kanjiEntries) && db.kanjiReadings == old(db.kanjiReadings)
  {
    InsertEntryRows(db, entries);
    InsertSenseRows(db, entries);
    db.InsertFtsEntries(FtsRows(entries, tokenize));
  }

  /** In the rows of one batch, every example row names the stored sense it
      was parsed under: the one at its sense's position after the senses
      already in the table. */
  lemma ExampleSenseLinkage(entries: seq<ParsedEntry>, base: nat, r: ExampleRow)
    ensures var ps := SenseList(entries);
      r in ExampleRows(SensesWithExamples(ps), SenseIds(base, |ps|)) <==>
      exists i, ex :: 0 <= i < |ps| && ex in ps[i].1.examples && r == ExampleRowOf(base + i + 1, ex)
  {
    var ps := SenseList(entries);
    var sw := SensesWithExamples(ps);
    var ids := SenseIds(base, |ps|);
    MapAt(ps, SenseWithExamples);
    ExampleRowsLinked(sw, ids, r);
    if exists i, ex :: 0 <= i < |sw| && ex in sw[i].1 && r == ExampleRowOf(ids[i], ex) {
      var i, ex :| 0 <= i < |sw| && ex in sw[i].1 && r == ExampleRowOf(ids[i], ex);
      assert ex in ps[i].1.examples && r == ExampleRowOf(base + i + 1, ex);
    }
    if exists i, ex :: 0 <= i < |ps| && ex in ps[i].1.examples && r == ExampleRowOf(base + i + 1, ex) {
      var i, ex :| 0 <= i < |ps| && ex in ps[i].1.examples && r == ExampleRowOf(base + i + 1, ex);
      assert ex in sw[i].1 && r == ExampleRowOf(ids[i], ex);
    }
  }

  /** Each cross reference of a batch links the stored sense at its field's
      sense position with the field row that carries the field's name. */
  lemma CrossRefLinkage(entries: seq<ParsedEntry>, base: nat, senses: seq<SenseRow>, fields: seq<string>, k: int)
    requires base <= |senses| && senses[base..] == SenseEntities(SensesWithExamples(SenseList(entries)))
    requires forall j :: 0 <= j < |FieldPairs(SenseList(entries))| ==> FieldPairs(SenseList(entries))[j].1 in fields
    requires 0 <= k < |FieldPairs(SenseList(entries))|
    ensures var ps := SenseList(entries);
      var fp := FieldPairs(ps);
      var cr := CrossRefRows(fp, SenseIds(base, |ps|), fields)[k];
      && 1 <= cr.senseId <= |senses| && senses[cr.senseId - 1] == SenseRowOf(ps[fp[k].0].0, ps[fp[k].0].1)
      && 1 <= cr.fieldId <= |fields| && fields[cr.fieldId - 1] == fp[k].1
      && fp[k].1 in ps[fp[k].0].1.field
  {
    var ps := SenseList(entries);
    var fp := FieldPairs(ps);
    var i := fp[k].0;
    MapAt(ps, SenseWithExamples);
    assert senses[base + i] == senses[base..][i];
    FieldPairsMember(ps, i, fp[k].1);
  }

  // ---------------------------------------------------------------------------
  // insertKanjiEntriesToDatabase
  // ---------------------------------------------------------------------------

  function KanjiEntryOfParsed(p: K.ParsedKanjiEntry): K.KanjiEntry
  {
    p.kanjiEntry
  }

  function ReadingsOfParsed(p: K.ParsedKanjiEntry): seq<K.KanjiReading>
  {
    p.readings
  }

  function KanjiEntryRows(entries: seq<K.ParsedKanjiEntry>): seq<K.KanjiEntry>
  {
    Map(entries, KanjiEntryOfParsed)
  }

  function KanjiReadingRows(entries: seq<K.ParsedKanjiEntry>): seq<K.KanjiReading>
  {
    FlatMap(entries, ReadingsOfParsed)
  }

  /** A reading row exists exactly for the readings of the batch's records. */
  lemma KanjiReadingRowsMember(entries: seq<K.ParsedKanjiEntry>, r: K.KanjiReading)
    ensures r in KanjiReadingRows(entries) <==> exists k :: 0 <= k < |entries| && r in entries[k].readings
  {
    MapAt(entries, ReadingsOfParsed);
    FlattenMember(Map(entries, ReadingsOfParsed), r);
  }

  /** One batch of kanji records, inside one transaction. */
  method InsertKanjiEntries(db: Database, entries: seq<K.ParsedKanjiEntry>)
    modifies db`kanjiEntries, db`kanjiReadings
    ensures db.kanjiEntries == old(db.kanjiEntries) + KanjiEntryRows(entries)
    ensures db.kanjiReadings == old(db.kanjiReadings) + KanjiReadingRows(entries)
  {
    db.InsertKanjiEntries(KanjiEntryRows(entries));
    db.InsertKanjiReadings(KanjiReadingRows(entries));
  }

  // ---------------------------------------------------------------------------
  // The import, parsed and written in sequence
  // ---------------------------------------------------------------------------

  datatype ImportProgress =
    | Parsing(phase: int, current: int, total: int)
    | Inserting(phase: int, current: int, total: int)
    | Completed(count: int)

  const PHASE_PARSE_DICT := 0
  const PHASE_INSERT_DICT := 1
  const PHASE_PARSE_KANJI := 2
  const PHASE_INSERT_KANJI := 3

  /** The `Inserting` reports of a run that writes `batches` in order: after
      each batch, the number of entries written so far, as both the inserted
      and the received count. */
  function InsertingReports<T>(phase: int, batches: seq<seq<T>>): (r: seq<ImportProgress>)
    ensures |r| == |batches|
    decreases |batches|
  {
    if batches == [] then []
    else
      var n := |Flatten(batches)|;
      InsertingReports(phase, batches[..|batches| - 1]) + [Inserting(phase, n, n)]
  }

  /** Writing one more batch adds one report, with the new running count. */
  lemma InsertingReportsAppend<T>(phase: int, batches: seq<seq<T>>, x: seq<T>)
    ensures InsertingReports(phase, batches + [x]) ==
      InsertingReports(phase, batches) + [Inserting(phase, |Flatten(batches)| + |x|, |Flatten(batches)| + |x|)]
  {
    assert (batches + [x])[..|batches|] == batches;
    FlattenAppend(batches, x);
  }

  /** Report `k` counts the entries of the first `k + 1` batches, so the
      counts never decrease and the last equals the whole run. */
  lemma {:induction false} InsertingReportsAt<T>(phase: int, batches: seq<seq<T>>, k: int)
    requires 0 <= k < |batches|
    ensures InsertingReports(phase, batches)[k] ==
      Inserting(phase, |Flatten(batches[..k + 1])|, |Flatten(batches[..k + 1])|)
    decreases |batches|
  {
    var n := |batches| - 1;
    if k < n {
      InsertingReportsAt(phase, batches[..n], k);
      assert batches[..n][..k + 1] == batches[..k + 1];
    } else {
      assert batches[..k + 1] == batches;
    }
  }

  /** The `Parsing` reports the flow sends for the parser's batches, one per
      `onBatchReady` call, in call order. */
  function ToParsing(phase: int, reports: seq<Progress>): (r: seq<ImportProgress>)
    ensures |r| == |reports|
    decreases |reports|
  {
    if reports == [] then []
    else
      var p := reports[|reports| - 1];
      ToParsing(phase, reports[..|reports| - 1]) + [Parsing(phase, p.current, p.total)]
  }

  /** The `Parsing` reports of a run that parses `batches` in order, counting
      from `initialTotal`: after each batch, the number parsed so far, as both
      the current and the total count. */
  function ParsingReports<T>(phase: int, initialTotal: int, batches: seq<seq<T>>): (r: seq<ImportProgress>)
    ensures |r| == |batches|
    decreases |batches|
  {
    if batches == [] then []
    else
      var n := initialTotal + |Flatten(batches)|;
      ParsingReports(phase, initialTotal, batches[..|batches| - 1]) + [Parsing(phase, n, n)]
  }

  /** The parser's progress values, sent as `Parsing` reports, are the running
      counts of its batches. */
  lemma {:induction false} ReportedAsParsing<T>(phase: int, batches: seq<seq<T>>, reports: seq<Progress>, initialTotal: int)
    requires Reported(batches, reports, initialTotal)
    ensures ToParsing(phase, reports) == ParsingReports(phase, initialTotal, batches)
    decreases |batches|
  {
    if batches != [] {
      ReportedAsParsing(phase, batches[..|batches| - 1], reports[..|reports| - 1], initialTotal);
    }
  }

  /** Report `k` counts the entries of the first `k + 1` batches on top of the
      starting count. */
  lemma {:induction false} ParsingReportsAt<T>(phase: int, initialTotal: int, batches: seq<seq<T>>, k: int)
    requires 0 <= k < |batches|
    ensures ParsingReports(phase, initialTotal, batches)[k] ==
      Parsing(phase, initialTotal + |Flatten(batches[..k + 1])|, initialTotal + |Flatten(batches[..k + 1])|)
    decreases |batches|
  {
    var n := |batches| - 1;
    if k < n {
      ParsingReportsAt(phase, initialTotal, batches[..n], k);
      assert batches[..n][..k + 1] == batches[..k + 1];
    } else {
      assert batches[..k + 1] == batches;
    }
  }

  /** The tables the inserter's loop tracks, after the entries `done`. */
  ghost predicate WordTablesAfter(db: Database, entries0: seq<DictionaryEntryRow>, kanji0: seq<KanjiRow>,
                                  readings0: seq<ReadingRow>, fts0: seq<FtsRow>,
                                  done: seq<ParsedEntry>, tokenize: string -> string)
    reads db
  {
    && db.dictionaryEntries == entries0 + EntryRows(done)
    && db.kanji == kanji0 + KanjiRows(done)
    && db.readings == readings0 + ReadingRows(done)
    && db.fts == fts0 + FtsRows(done, tokenize)
  }

  /** One pass of the inserter's loop: the batch's rows follow those of the
      batches already written, both counters grow by the batch's size, and
      one `Inserting` report is added. */
  method InsertWordBatch(db: Database, ghost entries0: seq<DictionaryEntryRow>, ghost kanji0: seq<KanjiRow>,
                         ghost readings0: seq<ReadingRow>, ghost fts0: seq<FtsRow>,
                         ghost done: seq<seq<ParsedEntry>>, entries: seq<ParsedEntry>, tokenize: string -> string,
                         totalInserted: int, totalEntries: int, progress: seq<ImportProgress>)
    returns (totalInserted': int, totalEntries': int, progress': seq<ImportProgress>)
    requires WordTablesAfter(db, entries0, kanji0, readings0, fts0, Flatten(done), tokenize)
    requires totalInserted == totalEntries == |Flatten(done)|
    requires progress == InsertingReports(PHASE_INSERT_DICT, done)
    modifies db`dictionaryEntries, db`kanji, db`readings, db`senses, db`examples, db`fields, db`fieldQueries,
             db`crossRefs, db`fts
    ensures WordTablesAfter(db, entries0, kanji0, readings0, fts0, Flatten(done + [entries]), tokenize)
    ensures totalInserted' == totalEntries' == |Flatten(done + [entries])|
    ensures progress' == InsertingReports(PHASE_INSERT_DICT, done + [entries])
  {
    totalEntries' := totalEntries + |entries|;
    InsertEntries(db, entries, tokenize);
    totalInserted' := totalInserted + |entries|;
    progress' := progress + [Inserting(PHASE_INSERT_DICT, totalInserted', totalEntries')];
    ghost var prior := Flatten(done);
    FlattenAppend(done, entries);
    InsertingReportsAppend(PHASE_INSERT_DICT, done, entries);
    MapConcat(prior, entries, EntryRowOf);
    FlatMapConcat(prior, entries, EntryKanjiRows);
    FlatMapConcat(prior, entries, EntryReadingRows);
    FtsRowsConcat(prior, entries, tokenize);
    AppendAssoc(entries0, EntryRows(prior), EntryRows(entries));
    AppendAssoc(kanji0, KanjiRows(prior), KanjiRows(entries));
    AppendAssoc(readings0, ReadingRows(prior), ReadingRows(entries));
    AppendAssoc(fts0, FtsRows(prior, tokenize), FtsRows(entries, tokenize));
  }

  /** The inserter's loop over the word batches, in the order the parser sent them. */
  method InsertWordBatches(db: Database, batches: seq<seq<ParsedEntry>>, tokenize: string -> string)
    returns (totalInserted: int, progress: seq<ImportProgress>)
    modifies db`dictionaryEntries, db`kanji, db`readings, db`senses, db`examples, db`fields, db`fieldQueries,
             db`crossRefs, db`fts
    ensures db.dictionaryEntries == old(db.dictionaryEntries) + EntryRows(Flatten(batches))
    ensures db.kanji == old(db.kanji) + KanjiRows(Flatten(batches))
    ensures db.readings == old(db.readings) + ReadingRows(Flatten(batches))
    ensures db.fts == old(db.fts) + FtsRows(Flatten(batches), tokenize)
    ensures totalInserted == |Flatten(batches)|
    ensures progress == InsertingReports(PHASE_INSERT_DICT, batches)
  {
    ghost var entries0, kanji0, readings0, fts0 := db.dictionaryEntries, db.kanji, db.readings, db.fts;
    totalInserted := 0;
    var totalEntries := 0;
    progress := [];
    var b := 0;
    while b < |batches|
      invariant 0 <= b <= |batches|
      invariant totalInserted == totalEntries == |Flatten(batches[..b])|
      invariant progress == InsertingReports(PHASE_INSERT_DICT, batches[..b])
      invariant WordTablesAfter(db, entries0, kanji0, readings0, fts0, Flatten(batches[..b]), tokenize)
    {
      assert batches[..b + 1] == batches[..b] + [batches[b]];
      totalInserted, totalEntries, progress :=
        InsertWordBatch(db, entries0, kanji0, readings0, fts0, batches[..b], batches[b], tokenize,
                        totalInserted, totalEntries, progress);
      b := b + 1;
    }
    assert batches[..b] == batches;
  }

  /** `importDataFlow` with the parser and the inserter run one after the
      other: nothing happens when the dictionary table is already filled;
      otherwise every batch the parser emits is written in emission order.
      The flow's reports are returned as two streams: `parsing`, one
      `Parsing` report per emitted batch counting from the checkpoint, and
      `progress`, one `Inserting` report per written batch, then the number
      of entries written (counted from 0 whatever the checkpoint). */
  method ImportWords(db: Database, events: seq<Event>, batchSize: int, checkpoint: int, tokenize: string -> string)
    returns (parsing: seq<ImportProgress>, progress: seq<ImportProgress>, ghost batches: seq<seq<ParsedEntry>>)
    modifies db`dictionaryEntries, db`kanji, db`readings, db`senses, db`examples, db`fields, db`fieldQueries,
             db`crossRefs, db`fts
    ensures old(db.HasEntries()) ==> parsing == [] && progress == [Completed(0)] && unchanged(db)
    ensures !old(db.HasEntries()) ==>
      && Flatten(batches) == WordEntries(events) && WellBatched(batches, batchSize)
      && parsing == ParsingReports(PHASE_PARSE_DICT, checkpoint, batches)
      && db.dictionaryEntries == EntryRows(WordEntries(events))
      && db.kanji == old(db.kanji) + KanjiRows(WordEntries(events))
      && db.readings == old(db.readings) + ReadingRows(WordEntries(events))
      && db.fts == old(db.fts) + FtsRows(WordEntries(events), tokenize)
      && progress == InsertingReports(PHASE_INSERT_DICT, batches) + [Completed(|WordEntries(events)|)]
  {
    if db.HasEntries() {
      parsing, progress := [], [Completed(0)];
      batches := [];
      return;
    }
    var parsed, reports := ParseWords(events, batchSize, checkpoint);
    batches := parsed;
    parsing := ToParsing(PHASE_PARSE_DICT, reports);
    ReportedAsParsing(PHASE_PARSE_DICT, parsed, reports, checkpoint);
    var totalInserted, inserting := InsertWordBatches(db, parsed, tokenize);
    progress := inserting + [Completed(totalInserted)];
  }

  /** One pass of the kanji inserter's loop. */
  method InsertKanjiBatch(db: Database, ghost entries0: seq<K.KanjiEntry>, ghost readings0: seq<K.KanjiReading>,
                          ghost done: seq<seq<K.ParsedKanjiEntry>>, entries: seq<K.ParsedKanjiEntry>,
                          totalInserted: int, totalEntries: int, progress: seq<ImportProgress>)
    returns (totalInserted': int, totalEntries': int, progress': seq<ImportProgress>)
    requires db.kanjiEntries == entries0 + KanjiEntryRows(Flatten(done))
    requires db.kanjiReadings == readings0 + KanjiReadingRows(Flatten(done))
    requires totalInserted == totalEntries == |Flatten(done)|
    requires progress == InsertingReports(PHASE_INSERT_KANJI, done)
    modifies db`kanjiEntries, db`kanjiReadings
    ensures db.kanjiEntries == entries0 + KanjiEntryRows(Flatten(done + [entries]))
    ensures db.kanjiReadings == readings0 + KanjiReadingRows(Flatten(done + [entries]))
    ensures totalInserted' == totalEntries' == |Flatten(done + [entries])|
    ensures progress' == InsertingReports(PHASE_INSERT_KANJI, done + [entries])
  {
    totalEntries' := totalEntries + |entries|;
    InsertKanjiEntries(db, entries);
    totalInserted' := totalInserted + |entries|;
    progress' := progress + [Inserting(PHASE_INSERT_KANJI, totalInserted', totalEntries')];
    ghost var prior := Flatten(done);
    FlattenAppend(done, entries);
    InsertingReportsAppend(PHASE_INSERT_KANJI, done, entries);
    MapConcat(prior, entries, KanjiEntryOfParsed);
    FlatMapConcat(prior, entries, ReadingsOfParsed);
    AppendAssoc(entries0, KanjiEntryRows(prior), KanjiEntryRows(entries));
    AppendAssoc(readings0, KanjiReadingRows(prior), KanjiReadingRows(entries));
  }

  /** The inserter's loop over the kanji batches. */
  method InsertKanjiBatches(db: Database, batches: seq<seq<K.ParsedKanjiEntry>>)
    returns (totalInserted: int, progress: seq<ImportProgress>)
    modifies db`kanjiEntries, db`kanjiReadings
    ensures db.kanjiEntries == old(db.kanjiEntries) + KanjiEntryRows(Flatten(batches))
    ensures db.kanjiReadings == old(db.kanjiReadings) + KanjiReadingRows(Flatten(batches))
    ensures totalInserted == |Flatten(batches)|
    ensures progress == InsertingReports(PHASE_INSERT_KANJI, batches)
  {
    ghost var entries0, readings0 := db.kanjiEntries, db.kanjiReadings;
    totalInserted := 0;
    var totalEntries := 0;
    progress := [];
    var b := 0;
    while b < |batches|
      invariant 0 <= b <= |batches|
      invariant totalInserted == totalEntries == |Flatten(batches[..b])|
      invariant progress == InsertingReports(PHASE_INSERT_KANJI, batches[..b])
      invariant db.kanjiEntries == entries0 + KanjiEntryRows(Flatten(batches[..b]))
      invariant db.kanjiReadings == readings0 + KanjiReadingRows(Flatten(batches[..b]))
    {
      assert batches[..b + 1] == batches[..b] + [batches[b]];
      totalInserted, totalEntries, progress :=
        InsertKanjiBatch(db, entries0, readings0, batches[..b], batches[b], totalInserted, totalEntries, progress);
      b := b + 1;
    }
    assert batches[..b] == batches;
  }

  /** `importKanjiDataFlow` in the same sequential reading; its `Parsing`
      reports count from 0. */
  method ImportKanji(db: Database, events: seq<Event>, batchSize: int)
    returns (parsing: seq<ImportProgress>, progress: seq<ImportProgress>, ghost batches: seq<seq<K.ParsedKanjiEntry>>)
    modifies db`kanjiEntries, db`kanjiReadings
    ensures old(db.HasKanjiEntries()) ==> parsing == [] && progress == [Completed(0)] && unchanged(db)
    ensures !old(db.HasKanjiEntries()) ==>
      && Flatten(batches) == K.KanjiEntries(events) && WellBatched(batches, batchSize)
      && parsing == ParsingReports(PHASE_PARSE_KANJI, 0, batches)
      && db.kanjiEntries == KanjiEntryRows(K.KanjiEntries(events))
      && db.kanjiReadings == old(db.kanjiReadings) + KanjiReadingRows(K.KanjiEntries(events))
      && progress == InsertingReports(PHASE_INSERT_KANJI, batches) + [Completed(|K.KanjiEntries(events)|)]
  {
    if db.HasKanjiEntries() {
      parsing, progress := [], [Completed(0)];
      batches := [];
      return;
    }
    var parsed, reports := K.ParseKanji(events, batchSize);
    batches := parsed;
    parsing := ToParsing(PHASE_PARSE_KANJI, reports);
    ReportedAsParsing(PHASE_PARSE_KANJI, parsed, reports, 0);
    var totalInserted, inserting := InsertKanjiBatches(db, parsed);
    progress := inserting + [Completed(totalInserted)];
  }
}
