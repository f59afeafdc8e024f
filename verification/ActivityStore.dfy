/** The append-only activity stream: one file of lines per run, hash-chained and read in pages. */
module ActivityStore {
  import opened Common
  import opened HashChain

  datatype ActivityDraft = ActivityDraft(
    runId: string, timestamp: int, eventType: string, summary: string, runState: string, source: string,
    details: string)

  /** The digest covers everything but the event's own identifier and digest. */
  datatype ActivityEvent = ActivityEvent(link: Link<ActivityDraft>, eventId: string)

  type ActivityHash = Material<ActivityDraft> -> string

  /** A line of the file as a reader finds it. */
  datatype Line = Row(event: ActivityEvent) | Blank | Garbage

  datatype Fault =
    | OutOfSequence(expected: nat, actual: int)
    | WrongPrevious(sequence: int)
    | WrongDigest(sequence: int)
    | WrongId(sequence: int)

  datatype ReadError = BadArgument | BrokenStream

  datatype Verdict = Verdict(valid: bool, eventCount: nat, lastSequence: nat, lastDigest: Option<string>)

  function EventId(digest: string): string {
    "evt_" + if |digest| <= 24 then digest else digest[..24]
  }

  function Sign(hash: ActivityHash, material: Material<ActivityDraft>): ActivityEvent {
    ActivityEvent(Seal(hash, material), EventId(hash(material)))
  }

  function LinksOf(events: seq<ActivityEvent>): (links: seq<Link<ActivityDraft>>)
    ensures |links| == |events| && forall i :: 0 <= i < |events| ==> links[i] == events[i].link
  {
    seq(|events|, i requires 0 <= i < |events| => events[i].link)
  }

  /** A stream as it was written: contiguous, chained from nothing, identified by its digests. */
  ghost predicate Genuine(hash: ActivityHash, events: seq<ActivityEvent>) {
    && Contiguous(hash, None, LinksOf(events))
    && forall i :: 0 <= i < |events| ==> events[i].eventId == EventId(events[i].link.digest)
  }

  function EventsOf(lines: seq<Line>): seq<ActivityEvent> {
    if lines == [] then []
    else EventsOf(lines[..|lines| - 1]) + if lines[|lines| - 1].Row? then [lines[|lines| - 1].event] else []
  }

  /** Every line is blank or an event of this run. */
  predicate Readable(lines: seq<Line>, runId: string) {
    forall i :: 0 <= i < |lines| ==> !lines[i].Garbage? && (lines[i].Row? ==> lines[i].event.link.body.runId == runId)
  }

  ghost predicate Loads(hash: ActivityHash, lines: seq<Line>, runId: string) {
    Readable(lines, runId) && Genuine(hash, EventsOf(lines))
  }

  /** The events after a sequence number, at most `limit` of them. */
  function Page<E>(events: seq<E>, after: nat, limit: nat): seq<E> {
    var from := if after < |events| then after else |events|;
    var to := if after + limit < |events| then after + limit else |events|;
    events[from..to]
  }

  // ---------------------------------------------------------------- tamper evidence

  lemma GenuineExtends(hash: ActivityHash, events: seq<ActivityEvent>, draft: ActivityDraft)
    requires Genuine(hash, events)
    ensures Genuine(hash, events + [Sign(hash, Material(|events| + 1, Tip(None, LinksOf(events)), draft))])
  {
    var event := Sign(hash, Material(|events| + 1, Tip(None, LinksOf(events)), draft));
    ChainedExtends(hash, None, LinksOf(events), event.link);
    assert LinksOf(events + [event]) == LinksOf(events) + [event.link];
  }

  /** Two streams that both verify and end in the same digest are the same stream, identifiers included. */
  lemma LastDigestFixesStream(hash: ActivityHash, xs: seq<ActivityEvent>, ys: seq<ActivityEvent>)
    requires Injective(hash) && Genuine(hash, xs) && Genuine(hash, ys)
    requires Tip(None, LinksOf(xs)) == Tip(None, LinksOf(ys))
    ensures xs == ys
  {
    if xs != [] && ys != [] {
      LastDigestFixesLedger(hash, None, LinksOf(xs), LinksOf(ys));
      forall i | 0 <= i < |xs|
        ensures xs[i] == ys[i]
      {
        assert LinksOf(xs)[i] == LinksOf(ys)[i];
      }
    }
  }

  /** Without a remembered digest a truncation goes unnoticed: every prefix of a stream verifies. */
  lemma PrefixesAreGenuine(hash: ActivityHash, events: seq<ActivityEvent>, n: nat)
    requires Genuine(hash, events) && n <= |events|
    ensures Genuine(hash, events[..n])
  {
    ChainedPrefix(hash, None, LinksOf(events), n);
    assert LinksOf(events[..n]) == LinksOf(events)[..n];
  }

  /** Appending a line appends its event. */
  lemma LineAppends(lines: seq<Line>, line: Line)
    ensures EventsOf(lines + [line]) == EventsOf(lines) + if line.Row? then [line.event] else []
  {
    assert (lines + [line])[..|lines|] == lines;
  }

  lemma {:induction false} EventsKeepRun(lines: seq<Line>, runId: string)
    requires Readable(lines, runId)
    ensures forall i :: 0 <= i < |EventsOf(lines)| ==> EventsOf(lines)[i].link.body.runId == runId
  {
    if lines != [] {
      EventsKeepRun(lines[..|lines| - 1], runId);
    }
  }

  /** The chain is intact up to some point, so the next event's own checks decide. */
  lemma GenuineStep(hash: ActivityHash, events: seq<ActivityEvent>, i: nat)
    requires i < |events|
    ensures Genuine(hash, events[..i + 1]) <==>
      && Genuine(hash, events[..i])
      && events[i].link.sequence == i + 1 && events[i].link.previous == Tip(None, LinksOf(events[..i]))
      && Sealed(hash, events[i].link) && events[i].eventId == EventId(events[i].link.digest)
  {
    var all := events[..i + 1];
    assert all[..i] == events[..i] && all == events[..i] + [events[i]];
    assert LinksOf(all)[..i] == LinksOf(events[..i]);
    if Genuine(hash, all) {
      PrefixesAreGenuine(hash, all, i);
      assert LinksOf(all)[i] == events[i].link;
    }
    if Genuine(hash, events[..i]) && events[i].link.previous == Tip(None, LinksOf(events[..i])) &&
        Sealed(hash, events[i].link) {
      ChainedExtends(hash, None, LinksOf(events[..i]), events[i].link);
      assert LinksOf(all) == LinksOf(events[..i]) + [events[i].link];
    }
  }

  /** Collect everything wrong with a stream; nothing is wrong exactly when it is genuine. */
  method IntegrityErrors(hash: ActivityHash, events: seq<ActivityEvent>) returns (errors: seq<Fault>)
    ensures errors == [] <==> Genuine(hash, events)
  {
    errors := [];
    var previous: Option<string> := None;
    assert events[..0] == [];
    for i := 0 to |events|
      invariant previous == Tip(None, LinksOf(events[..i]))
      invariant errors == [] <==> Genuine(hash, events[..i])
    {
      var event := events[i];
      GenuineStep(hash, events, i);
      if event.link.sequence != i + 1 {
        errors := errors + [OutOfSequence(i + 1, event.link.sequence)];
      }
      if event.link.previous != previous {
        errors := errors + [WrongPrevious(event.link.sequence)];
      }
      var digest := hash(Material(event.link.sequence, event.link.previous, event.link.body));
      if event.link.digest != digest {
        errors := errors + [WrongDigest(event.link.sequence)];
      }
      if event.eventId != EventId(digest) {
        errors := errors + [WrongId(event.link.sequence)];
      }
      previous := Some(event.link.digest);
      assert LinksOf(events[..i + 1])[i] == event.link;
    }
    assert events[..|events|] == events;
  }

  /** Keep the events with a later sequence number, and at most `limit` of them. */
  method Select(hash: ActivityHash, events: seq<ActivityEvent>, after: nat, limit: nat)
    returns (page: seq<ActivityEvent>)
    requires Genuine(hash, events)
    ensures page == Page(events, after, limit)
  {
    var later: seq<ActivityEvent> := [];
    for i := 0 to |events|
      invariant later == events[if after < i then after else i..i]
    {
      assert LinksOf(events)[i].sequence == i + 1;
      if events[i].link.sequence > after {
        later := later + [events[i]];
      }
    }
    page := if limit < |later| then later[..limit] else later;
  }

  /** Signing the next event of a run and writing its line keeps the file loadable. */
  lemma AppendLoads(hash: ActivityHash, lines: seq<Line>, draft: ActivityDraft, event: ActivityEvent)
    requires Loads(hash, lines, draft.runId)
    requires event == Sign(hash, Material(|EventsOf(lines)| + 1, Tip(None, LinksOf(EventsOf(lines))), draft))
    ensures Loads(hash, lines + [Row(event)], draft.runId)
    ensures EventsOf(lines + [Row(event)]) == EventsOf(lines) + [event]
  {
    GenuineExtends(hash, EventsOf(lines), draft);
    LineAppends(lines, Row(event));
  }

  class ActivityStore {
    const hash: ActivityHash
    /** What is on disk; a run without a file has no entry. */
    var files: map<string, seq<Line>>

    constructor (hash: ActivityHash)
      ensures this.hash == hash && files == map[]
    {
      this.hash := hash;
      files := map[];
    }

    function LinesOf(runId: string): seq<Line>
      reads this
    {
      if runId in files then files[runId] else []
    }

    /** Parse and verify a whole file; nothing when any line or the chain is broken. */
    method Load(runId: string) returns (events: Option<seq<ActivityEvent>>)
      ensures events.Some? <==> Loads(hash, LinesOf(runId), runId)
      ensures events.Some? ==> events.value == EventsOf(LinesOf(runId))
    {
      var lines := LinesOf(runId);
      var parsed: seq<ActivityEvent> := [];
      assert lines[..0] == [];
      for i := 0 to |lines|
        invariant parsed == EventsOf(lines[..i])
        invariant Readable(lines[..i], runId)
      {
        assert lines[..i + 1] == lines[..i] + [lines[i]];
        LineAppends(lines[..i], lines[i]);
        match lines[i]
        case Blank =>
        case Garbage => return None;
        case Row(event) =>
          if event.link.body.runId != runId {
            return None;
          }
          parsed := parsed + [event];
      }
      assert lines[..|lines|] == lines;
      var errors := IntegrityErrors(hash, parsed);
      events := if errors == [] then Some(parsed) else None;
    }

    /** Append one event after verifying the whole stream; a broken stream accepts nothing. */
    method Append(draft: ActivityDraft) returns (event: Option<ActivityEvent>)
      modifies this
      ensures event.Some? <==> old(Loads(hash, LinesOf(draft.runId), draft.runId))
      ensures event.None? ==> files == old(files)
      ensures event.Some? ==>
        && event.value.link.body == draft
        && files == old(files)[draft.runId := old(LinesOf(draft.runId)) + [Row(event.value)]]
        && Loads(hash, LinesOf(draft.runId), draft.runId)
        && EventsOf(LinesOf(draft.runId)) == old(EventsOf(LinesOf(draft.runId))) + [event.value]
    {
      var events := Load(draft.runId);
      if events.None? {
        return None;
      }
      var n := |events.value|;
      var previous := if n == 0 then None else Some(events.value[n - 1].link.digest);
      assert previous == Tip(None, LinksOf(events.value));
      var signed := Sign(hash, Material(n + 1, previous, draft));
      AppendLoads(hash, LinesOf(draft.runId), draft, signed);
      files := files[draft.runId := LinesOf(draft.runId) + [Row(signed)]];
      event := Some(signed);
    }

    /** Read one page; sequence numbers select exactly the events after the cursor. */
    method ReadAfter(runId: string, after: int, limit: int) returns (page: Result<seq<ActivityEvent>, ReadError>)
      ensures page == Err(BadArgument) <==> after < 0 || !(1 <= limit <= 1000)
      ensures page == Err(BrokenStream) <==> after >= 0 && 1 <= limit <= 1000 && !Loads(hash, LinesOf(runId), runId)
      ensures page.Ok? ==> page.value == Page(EventsOf(LinesOf(runId)), after, limit)
    {
      if after < 0 || !(1 <= limit <= 1000) {
        return Err(BadArgument);
      }
      var events := Load(runId);
      if events.None? {
        return Err(BrokenStream);
      }
      var selected := Select(hash, events.value, after, limit);
      page := Ok(selected);
    }

    /** Verify one stream without altering it. */
    method Verify(runId: string) returns (verdict: Verdict)
      ensures verdict.valid <==> Loads(hash, LinesOf(runId), runId)
      ensures verdict.valid ==>
        var events := EventsOf(LinesOf(runId));
        verdict == Verdict(true, |events|, |events|, Tip(None, LinksOf(events)))
      ensures !verdict.valid ==> verdict == Verdict(false, 0, 0, None)
    {
      var events := Load(runId);
      if events.None? {
        return Verdict(false, 0, 0, None);
      }
      if events.value == [] {
        return Verdict(true, 0, 0, None);
      }
      var n := |events.value|;
      var last := events.value[n - 1];
      assert LinksOf(events.value)[n - 1].sequence == n;
      verdict := Verdict(true, n, last.link.sequence, Some(last.link.digest));
    }
  }
}
