/**
 The buffer module as an object: its files and its module variables are fields, its calls
 are methods.  Each method refines the step of the same name in `InterviewLog`, so what is
 proved there about every run holds of this object.
 */
module InterviewBuffer {
  import opened InterviewLog
  import InterviewNode

  /** The accumulating loop over the split file. */
  method ParseLines(raw: seq<Line>) returns (events: seq<Event>)
    ensures events == Parsed(raw)
  {
    events := [];
    for i := 0 to |raw|
      invariant events == Parsed(raw[..i])
    {
      ParsedAppend(raw[..i], raw[i]);
      assert raw[..i + 1] == raw[..i] + [raw[i]];
      if raw[i].Record? {
        events := events + [raw[i].event];
      }
    }
    assert raw[..|raw|] == raw;
  }

  class Buffer {
    // The files.
    var lines: seq<Line>
    var tail: Tail
    var meta: nat
    // The module variables; `nextSeq` and `approxBytes` mean something once `seeded`.
    var seeded: bool
    var nextSeq: nat
    var approxBytes: nat

    ghost function State(): Node
      reads this
    {
      Node(Disk(lines, tail, meta), if seeded then Seeded(nextSeq, approxBytes) else Unseeded)
    }

    constructor ()
      ensures State() == Node(Disk([], Clean, 0), Unseeded)
      ensures InterviewNode.Sound(State(), -1)
    {
      lines, tail, meta, seeded, nextSeq, approxBytes := [], Clean, 0, false, 0, 0;
    }

    method Load() returns (events: seq<Event>)
      ensures events == Events(State().disk)
    {
      events := ParseLines(RawLines(Disk(lines, tail, meta)));
    }

    method EnsureSeeded(fate: HealFate) returns (r: Reply<()>)
      modifies this
      ensures (State(), r) == InterviewLog.EnsureSeeded(old(State()), fate)
    {
      if seeded { return Ok(()); }
      if !tail.Clean? {
        match fate
        case Healed => lines, tail := RawLines(Disk(lines, tail, meta)), Clean;
        case HealRejected => return Raised;
        case HealKilled(done) =>
          if done { lines, tail := RawLines(Disk(lines, tail, meta)), Clean; }
          return Gone;
      }
      var events := Load();
      var tailSeq := if |events| > 0 then events[|events| - 1].num + 1 else 0;
      nextSeq := if tailSeq < meta then meta else tailSeq;
      approxBytes := FileBytes(Disk(lines, tail, meta));
      seeded := true;
      r := Ok(());
    }

    /** The sidecar write followed by the rewrite through a temporary file. */
    method Replace(keep: seq<Event>, f: Fates) returns (r: Reply<()>)
      requires seeded
      modifies this
      ensures (State(), r) == InterviewLog.Replace(old(State()), keep, f)
    {
      match f.meta
      case MetaRejected(left) =>
        meta := LeaveMeta(Disk(lines, tail, meta), nextSeq, left).meta;
        return Raised;
      case MetaKilled(left) =>
        meta := LeaveMeta(Disk(lines, tail, meta), nextSeq, left).meta;
        seeded := false;
        return Gone;
      case MetaWritten =>
        meta := nextSeq;
        match f.swap
        case SwapRejected => return Raised;
        case SwapKilled(done) =>
          if done { lines, tail := Records(keep), Clean; }
          seeded := false;
          return Gone;
        case Swapped =>
          lines, tail := Records(keep), Clean;
          approxBytes := LineBytes(Records(keep));
          r := Ok(());
    }

    /** The size guard that ends an append. */
    method Guard(num: nat, f: Fates) returns (r: Reply<nat>)
      requires seeded
      modifies this
      ensures (State(), r) == InterviewLog.Guard(old(State()), num, f)
    {
      if approxBytes <= MAX_BYTES { return Ok(num); }
      var events := Load();
      var c := Replace(events[|events| / 2..], f);
      match c
      case Raised => r := Raised;
      case Gone => r := Gone;
      case Ok(_) => r := Ok(num);
    }

    method AppendSeeded(body: string, width: nat, f: Fates) returns (r: Reply<nat>)
      requires seeded
      modifies this
      ensures (State(), r) == InterviewLog.AppendSeeded(old(State()), body, width, f)
    {
      var e := Event(nextSeq, body, width);
      nextSeq := e.num + 1;
      match f.line
      case LineRejected => r := Raised;
      case LineKilled(cut) =>
        var d := CutLine(Disk(lines, tail, meta), e, cut);
        lines, tail, seeded := d.lines, d.tail, false;
        r := Gone;
      case Written =>
        var d := AppendLine(Disk(lines, tail, meta), e);
        lines, tail := d.lines, d.tail;
        approxBytes := approxBytes + e.width + 1;
        assert State() == WithLine(old(State()), e);
        r := Guard(e.num, f);
    }

    /** On every path the invariant holds again, at the event's number if the event became readable. */
    method Append(body: string, width: nat, f: Fates, ghost top: int) returns (r: Reply<nat>)
      requires InterviewNode.Sound(State(), top)
      modifies this
      ensures (State(), r) == InterviewLog.Append(old(State()), body, width, f)
      ensures InterviewNode.Appended(
                old(Events(State().disk)), Event(InterviewNode.NextNumber(old(State())), body, width), State(), r, top)
    {
      InterviewNode.AppendKeeps(State(), body, width, f, top);
      var s := EnsureSeeded(f.heal);
      match s
      case Raised => r := Raised;
      case Gone => r := Gone;
      case Ok(_) => r := AppendSeeded(body, width, f);
    }

    method Read(since: nat, count: nat, f: Fates) returns (r: Reply<seq<Event>>)
      modifies this
      ensures (State(), r) == InterviewLog.Read(old(State()), since, count, f)
    {
      var s := EnsureSeeded(f.heal);
      match s
      case Raised => return Raised;
      case Gone => return Gone;
      case Ok(_) =>
        var events := Load();
        var found := KeepAbove(events, since - 1);
        r := Ok(if |found| <= count then found else found[..count]);
    }

    method Prune(committed: int, f: Fates, ghost top: int) returns (r: Reply<()>)
      requires InterviewNode.Sound(State(), top)
      modifies this
      ensures (State(), r) == InterviewLog.Prune(old(State()), committed, f)
      ensures InterviewNode.Sound(State(), top)
      ensures r.Ok? ==> Events(State().disk) == KeepAbove(old(Events(State().disk)), committed)
    {
      InterviewNode.PruneKeeps(State(), committed, f, top);
      var s := EnsureSeeded(f.heal);
      if !s.Ok? { return s; }
      var events := Load();
      var keep := KeepAbove(events, committed);
      if |keep| == |events| { return Ok(()); }
      r := Replace(keep, f);
    }
  }
}
