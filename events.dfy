/** The pull parser's output, as the record builders see it: a sequence of
    events in document order. `Start` carries the element's local name and its
    attributes (local name, value), `Chars` a piece of character data, `End`
    the local name of the element being closed; `Other` stands for every other
    event kind (comments, processing instructions, entity references,
    document start and end), which both builders ignore.

    The ghost functions below describe positions in such a sequence without
    reference to either builder, so that each builder's accumulators can be
    characterised by them. */
module Xml {
  import opened Common

  datatype Attribute = Attribute(localName: string, value: string)

  datatype Event =
    | Start(name: string, attributes: seq<Attribute>)
    | Chars(text: string)
    | End(name: string)
    | Other

  predicate IsTag(e: Event)
  {
    e.Start? || e.End?
  }

  /** The position just after the last start or end tag before position `i`
      (0 when there is none): both builders clear their text buffer on every tag. */
  ghost function TextStart(evs: seq<Event>, i: nat): (j: nat)
    requires i <= |evs|
    ensures j <= i
    decreases i
  {
    if i == 0 then 0 else if IsTag(evs[i - 1]) then i else TextStart(evs, i - 1)
  }

  /** No tag lies between `TextStart` and `i`, and the event just before
      `TextStart` is one. */
  lemma {:induction false} TextStartFacts(evs: seq<Event>, i: nat)
    requires i <= |evs|
    ensures forall k :: TextStart(evs, i) <= k < i ==> !IsTag(evs[k])
    ensures TextStart(evs, i) > 0 ==> IsTag(evs[TextStart(evs, i) - 1])
    decreases i
  {
    if i > 0 && !IsTag(evs[i - 1]) {
      TextStartFacts(evs, i - 1);
    }
  }

  /** The character data of `evs[lo..hi]`, concatenated. */
  ghost function CharsText(evs: seq<Event>, lo: nat, hi: nat): string
    requires lo <= hi <= |evs|
    decreases hi - lo
  {
    if lo == hi then "" else CharsText(evs, lo, hi - 1) + (if evs[hi - 1].Chars? then evs[hi - 1].text else "")
  }

  /** The untrimmed text buffer as it stands when event `i` is handled. */
  ghost function BufferAt(evs: seq<Event>, i: nat): string
    requires i <= |evs|
  {
    CharsText(evs, TextStart(evs, i), i)
  }

  /** How the buffer moves from one event to the next: cleared by a tag,
      extended by character data, untouched by anything else. */
  lemma BufferStep(evs: seq<Event>, i: nat)
    requires i < |evs|
    ensures IsTag(evs[i]) ==> BufferAt(evs, i + 1) == ""
    ensures evs[i].Chars? ==> BufferAt(evs, i + 1) == BufferAt(evs, i) + evs[i].text
    ensures evs[i].Other? ==> BufferAt(evs, i + 1) == BufferAt(evs, i)
  {
  }

  /** The position just after the last `Start(name, _)` before position `n`
      (0 when there is none). */
  ghost function AfterLastStart(evs: seq<Event>, n: nat, name: string): (j: nat)
    requires n <= |evs|
    ensures j <= n
    decreases n
  {
    if n == 0 then 0
    else if evs[n - 1].Start? && evs[n - 1].name == name then n
    else AfterLastStart(evs, n - 1, name)
  }

  /** No `Start(name, _)` lies between `AfterLastStart` and `n`, and the event
      just before `AfterLastStart` is one. */
  lemma {:induction false} AfterLastStartFacts(evs: seq<Event>, n: nat, name: string)
    requires n <= |evs|
    ensures forall k :: AfterLastStart(evs, n, name) <= k < n ==> !(evs[k].Start? && evs[k].name == name)
    ensures AfterLastStart(evs, n, name) > 0 ==>
      evs[AfterLastStart(evs, n, name) - 1].Start? && evs[AfterLastStart(evs, n, name) - 1].name == name
    decreases n
  {
    if n > 0 && !(evs[n - 1].Start? && evs[n - 1].name == name) {
      AfterLastStartFacts(evs, n - 1, name);
    }
  }

  /** The position just after the last `End(name)` before position `n` (0
      when there is none). */
  ghost function AfterLastEnd(evs: seq<Event>, n: nat, name: string): (j: nat)
    requires n <= |evs|
    ensures j <= n
    decreases n
  {
    if n == 0 then 0
    else if evs[n - 1] == End(name) then n
    else AfterLastEnd(evs, n - 1, name)
  }

  /** The trimmed texts of all `End(name)` events in `evs[lo..hi]`, empty ones
      included, in document order. */
  ghost function AllEndTexts(evs: seq<Event>, lo: nat, hi: nat, name: string): seq<string>
    requires lo <= hi <= |evs|
    decreases hi - lo
  {
    if lo == hi then []
    else
      AllEndTexts(evs, lo, hi - 1, name) + (if evs[hi - 1] == End(name) then [Trim(BufferAt(evs, hi - 1))] else [])
  }

  /** The trimmed, non-empty texts of the `End(name)` events in `evs[lo..hi]`,
      in document order. */
  ghost function EndTexts(evs: seq<Event>, lo: nat, hi: nat, name: string): seq<string>
    requires lo <= hi <= |evs|
    decreases hi - lo
  {
    if lo == hi then []
    else
      var t := Trim(BufferAt(evs, hi - 1));
      EndTexts(evs, lo, hi - 1, name) + (if evs[hi - 1] == End(name) && t != "" then [t] else [])
  }

  /** The trimmed text of the last `End(name)` in `evs[lo..hi]`, or "" when
      there is none. */
  ghost function LastEndText(evs: seq<Event>, lo: nat, hi: nat, name: string): string
    requires lo <= hi <= |evs|
    decreases hi - lo
  {
    if lo == hi then ""
    else if evs[hi - 1] == End(name) then Trim(BufferAt(evs, hi - 1))
    else LastEndText(evs, lo, hi - 1, name)
  }

  /** How many `End(name)` events `evs[..n]` holds. */
  ghost function CountEnds(evs: seq<Event>, n: nat, name: string): nat
    requires n <= |evs|
    decreases n
  {
    if n == 0 then 0 else CountEnds(evs, n - 1, name) + (if evs[n - 1] == End(name) then 1 else 0)
  }
}
