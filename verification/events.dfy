/** The libyaml event stream as the loader sees it. */
module Events {
  import opened Outcome

  datatype Event =
    | StreamStart
    | StreamEnd
    | DocumentStart
    | DocumentEnd
    | MappingStart(tag: Option<string>, anchor: Option<string>)
    | MappingEnd
    | SequenceStart(tag: Option<string>, anchor: Option<string>)
    | SequenceEnd
    | Scalar(text: string, tag: Option<string>, anchor: Option<string>)
    | Alias(target: string)
    /** `yaml_parser_parse` failed; the problem it reported. */
    | Malformed(problem: string)
    /** The empty event libyaml hands out once the stream end has been produced. */
    | NoEvent
  {
    /** An event that begins a node. */
    predicate IsNode() {
      MappingStart? || SequenceStart? || Scalar? || Alias?
    }
  }

  /** `enum MinYamlParserStatus`: BLOCK_PROCEED, BLOCK_DONE, BLOCK_ERROR. */
  datatype Status = Proceed | Done | Failed

  datatype Pulled = Pulled(status: Status, event: Event, next: nat)

  /** `_parse_next`: the event at `pos`, with status Done when it is the awaited closing event `done`,
      Failed when the parser failed. Past the end of the stream libyaml keeps handing out the
      empty event, so the position stays put there. */
  function Pull(evs: seq<Event>, pos: nat, done: Event): (p: Pulled)
    requires pos <= |evs|
    ensures pos <= p.next <= |evs|
    ensures p.next == pos <==> p.event == NoEvent && pos == |evs|
    ensures p.status == Failed <==> p.event.Malformed?
    ensures p.status == Done <==> p.event == done && !done.Malformed?
  {
    if pos == |evs| then Pulled(if done == NoEvent then Done else Proceed, NoEvent, pos)
    else
      var ev := evs[pos];
      var status := if ev.Malformed? then Failed else if ev == done then Done else Proceed;
      Pulled(status, ev, pos + 1)
  }
}
