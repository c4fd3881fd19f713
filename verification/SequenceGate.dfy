/** The sequence gate of rfu-tunnel.v2 (switchtrade/rfu_tunnel_v2.py). */
module SequenceGates {
  import opened Common
  import opened Envelopes

  // The state of a gate as a value.
  datatype Gate = Gate(attempt: Text, seat: Seat, epoch: Option<int>, next: nat, retired: set<int>)

  function NewGate(attempt: Text, seat: Seat): Gate {
    Gate(attempt, seat, None, 0, {})
  }

  function AcceptFrame(g: Gate, e: Envelope): (r: Result<Gate, TunnelError>)
  {
    if e.attempt != g.attempt then Err(AttemptMismatch)
    else if e.seat != g.seat then Err(SourceSeatMismatch)
    else if e.epoch in g.retired then Err(EpochStale)
    else if Some(e.epoch) != g.epoch then
      if e.sequence != 0 || e.kind != PeerReady then Err(EpochStartInvalid)
      else Ok(g.(epoch := Some(e.epoch), next := 1,
                 retired := if g.epoch.Some? then g.retired + {g.epoch.value} else g.retired))
    else if e.sequence < g.next then Err(SequenceDuplicate)
    else if e.sequence > g.next then Err(SequenceGap)
    else if e.kind == PeerReady && e.sequence != 0 then Err(PeerReadyDuplicate)
    else Ok(g.(next := g.next + 1))
  }

  // The current epoch is not a retired one.
  predicate Sound(g: Gate) {
    g.epoch.Some? ==> g.epoch.value !in g.retired
  }

  // The answer to one frame: it is accepted when it opens an epoch the gate has not left, or is next
  // in the present one; otherwise the first thing wrong with it is named.
  lemma AnswersExactly(g: Gate, e: Envelope)
    ensures var mine := e.attempt == g.attempt && e.seat == g.seat;
            var same, r := g.epoch == Some(e.epoch), AcceptFrame(g, e);
            && (r.Ok? <==>
                  && mine && e.epoch !in g.retired
                  && (if same then e.sequence == g.next && (e.kind == PeerReady ==> g.next == 0)
                      else e.sequence == 0 && e.kind == PeerReady))
            && (r == Err(AttemptMismatch) <==> e.attempt != g.attempt)
            && (r == Err(SourceSeatMismatch) <==> e.attempt == g.attempt && e.seat != g.seat)
            && (r == Err(EpochStale) <==> mine && e.epoch in g.retired)
            && (r == Err(SequenceDuplicate) <==> mine && e.epoch !in g.retired && same && e.sequence < g.next)
            && (r == Err(SequenceGap) <==> mine && e.epoch !in g.retired && same && g.next < e.sequence)
            && (r == Err(EpochStartInvalid) <==>
                  mine && e.epoch !in g.retired && !same && !(e.sequence == 0 && e.kind == PeerReady))
    ensures AcceptFrame(g, e).Ok? ==>
              var h := AcceptFrame(g, e).value;
              && h.attempt == g.attempt && h.seat == g.seat && h.epoch == Some(e.epoch)
              && h.next == e.sequence + 1
              && h.retired
                == (if g.epoch.Some? && g.epoch.value != e.epoch then g.retired + {g.epoch.value} else g.retired)
  {
  }

  class SequenceGate {
    const attempt: Text
    const seat: Seat
    var epoch: Option<int>
    var nextSequence: nat
    var retiredEpochs: set<int>

    ghost function View(): Gate
      reads this
    {
      Gate(attempt, seat, epoch, nextSequence, retiredEpochs)
    }

    constructor (attempt: Text, seat: Seat)
      requires AttemptBytes(attempt).Ok?
      ensures View() == NewGate(attempt, seat)
    {
      this.attempt := attempt;
      this.seat := seat;
      epoch := None;
      nextSequence := 0;
      retiredEpochs := {};
    }

    // The fields of a fresh epoch are written before the sequence checks run, yet a frame that
    // is rejected leaves the gate as it was.
    method Accept(e: Envelope) returns (error: Option<TunnelError>)
      modifies this
      ensures match AcceptFrame(old(View()), e)
              case Ok(g) => error == None && View() == g
              case Err(code) => error == Some(code) && View() == old(View())
    {
      if e.attempt != attempt {
        return Some(AttemptMismatch);
      }
      if e.seat != seat {
        return Some(SourceSeatMismatch);
      }
      if e.epoch in retiredEpochs {
        return Some(EpochStale);
      }
      if Some(e.epoch) != epoch {
        if e.sequence != 0 || e.kind != PeerReady {
          return Some(EpochStartInvalid);
        }
        if epoch.Some? {
          retiredEpochs := retiredEpochs + {epoch.value};
        }
        epoch := Some(e.epoch);
        nextSequence := 0;
      }
      if e.sequence < nextSequence {
        return Some(SequenceDuplicate);
      }
      if e.sequence > nextSequence {
        return Some(SequenceGap);
      }
      if e.kind == PeerReady && e.sequence != 0 {
        return Some(PeerReadyDuplicate);
      }
      nextSequence := nextSequence + 1;
      return None;
    }
  }

  // Feeding a list of frames, stopping at the first rejection.
  function AcceptAll(g: Gate, frames: seq<Envelope>): (r: Result<Gate, TunnelError>)
  {
    if frames == [] then Ok(g)
    else match AcceptAll(g, frames[..|frames| - 1])
      case Err(error) => Err(error)
      case Ok(h) => AcceptFrame(h, frames[|frames| - 1])
  }

  // One epoch of one sender: PEER_READY at 0, then contiguous frames that are not PEER_READY.
  predicate IsRun(attempt: Text, seat: Seat, run: seq<Envelope>) {
    && run != []
    && run[0].kind == PeerReady
    && forall i :: 0 <= i < |run| ==>
      && run[i].attempt == attempt && run[i].seat == seat
      && run[i].epoch == run[0].epoch && run[i].sequence == i
      && (i > 0 ==> run[i].kind != PeerReady)
  }

  // Runs of pairwise distinct epochs.
  predicate Split(attempt: Text, seat: Seat, runs: seq<seq<Envelope>>) {
    && (forall k :: 0 <= k < |runs| ==> IsRun(attempt, seat, runs[k]))
    && forall j, k :: 0 <= j < k < |runs| ==> runs[j][0].epoch != runs[k][0].epoch
  }

  function Flatten(runs: seq<seq<Envelope>>): (frames: seq<Envelope>)
  {
    if runs == [] then [] else Flatten(runs[..|runs| - 1]) + runs[|runs| - 1]
  }

  ghost predicate InLanguage(attempt: Text, seat: Seat, frames: seq<Envelope>) {
    exists runs :: Split(attempt, seat, runs) && Flatten(runs) == frames
  }

  // What a gate remembers of the runs it has accepted.
  ghost predicate Remembers(g: Gate, attempt: Text, seat: Seat, runs: seq<seq<Envelope>>)
    requires Split(attempt, seat, runs)
  {
    && g.attempt == attempt && g.seat == seat
    && (runs == [] ==> g == NewGate(attempt, seat))
    && (runs != [] ==>
          var n := |runs| - 1;
          && g.epoch == Some(runs[n][0].epoch) && g.next == |runs[n]|
          && g.retired == set k | 0 <= k < n :: runs[k][0].epoch)
  }

  function Started(runs: seq<seq<Envelope>>, e: Envelope): (after: seq<seq<Envelope>>)
    ensures Flatten(after) == Flatten(runs) + [e]
  {
    var after := runs + [[e]];
    assert after[..|after| - 1] == runs;
    after
  }

  function Extended(runs: seq<seq<Envelope>>, e: Envelope): (after: seq<seq<Envelope>>)
    requires runs != []
    ensures Flatten(after) == Flatten(runs) + [e]
    ensures |after| == |runs| && after[..|runs| - 1] == runs[..|runs| - 1]
    ensures after[|runs| - 1] == runs[|runs| - 1] + [e]
  {
    var n := |runs| - 1;
    var after := runs[..n] + [runs[n] + [e]];
    assert after[..n] == runs[..n];
    after
  }

  // A frame of another epoch is accepted exactly when it may start a further run.
  lemma StartsRun(g: Gate, attempt: Text, seat: Seat, runs: seq<seq<Envelope>>, e: Envelope)
    requires Split(attempt, seat, runs) && Remembers(g, attempt, seat, runs)
    requires Some(e.epoch) != g.epoch
    ensures AcceptFrame(g, e).Ok? <==> Split(attempt, seat, Started(runs, e))
    ensures AcceptFrame(g, e).Ok? ==> Remembers(AcceptFrame(g, e).value, attempt, seat, Started(runs, e))
  {
    var after := Started(runs, e);
    var n := |runs|;
    assert after[n] == [e];
    assert forall k :: 0 <= k < n ==> after[k] == runs[k];
    assert IsRun(attempt, seat, [e]) <==>
      e.kind == PeerReady && e.attempt == attempt && e.seat == seat && e.sequence == 0;
    if e.epoch in g.retired {
      var k :| 0 <= k < n - 1 && runs[k][0].epoch == e.epoch;
      assert after[k][0].epoch == after[n][0].epoch;
    } else {
      assert forall k :: 0 <= k < n ==> runs[k][0].epoch != e.epoch;
    }
  }

  // A frame of the current epoch is accepted exactly when it may extend the last run.
  lemma ExtendsRun(g: Gate, attempt: Text, seat: Seat, runs: seq<seq<Envelope>>, e: Envelope)
    requires Split(attempt, seat, runs) && Remembers(g, attempt, seat, runs)
    requires runs != [] && Some(e.epoch) == g.epoch
    ensures AcceptFrame(g, e).Ok? <==> Split(attempt, seat, Extended(runs, e))
    ensures AcceptFrame(g, e).Ok? ==> Remembers(AcceptFrame(g, e).value, attempt, seat, Extended(runs, e))
  {
    var after := Extended(runs, e);
    var n := |runs| - 1;
    var run := runs[n];
    assert forall k :: 0 <= k < n ==> after[k] == after[..n][k] == runs[k];
    assert after[n][0] == run[0] && after[n][|run|] == e;
    assert forall i :: 0 <= i < |run| ==> after[n][i] == run[i];
    assert e.epoch !in g.retired;
    assert IsRun(attempt, seat, after[n]) <==>
      e.kind != PeerReady && e.attempt == attempt && e.seat == seat && e.sequence == |run|;
  }

  lemma {:induction false} RunsOfAccepted(attempt: Text, seat: Seat, frames: seq<Envelope>)
    returns (runs: seq<seq<Envelope>>)
    requires AcceptAll(NewGate(attempt, seat), frames).Ok?
    ensures Split(attempt, seat, runs) && Flatten(runs) == frames
    ensures Remembers(AcceptAll(NewGate(attempt, seat), frames).value, attempt, seat, runs)
  {
    if frames == [] {
      return [];
    }
    var init, e := frames[..|frames| - 1], frames[|frames| - 1];
    runs := RunsOfAccepted(attempt, seat, init);
    var g := AcceptAll(NewGate(attempt, seat), init).value;
    assert frames == init + [e];
    if Some(e.epoch) != g.epoch {
      StartsRun(g, attempt, seat, runs, e);
      runs := Started(runs, e);
    } else {
      ExtendsRun(g, attempt, seat, runs, e);
      runs := Extended(runs, e);
    }
  }

  lemma {:induction false} SplitIsAccepted(attempt: Text, seat: Seat, runs: seq<seq<Envelope>>)
    requires Split(attempt, seat, runs)
    ensures AcceptAll(NewGate(attempt, seat), Flatten(runs)).Ok?
    ensures Remembers(AcceptAll(NewGate(attempt, seat), Flatten(runs)).value, attempt, seat, runs)
    decreases |Flatten(runs)|
  {
    hide AcceptFrame;
    if runs == [] {
      return;
    }
    var n := |runs| - 1;
    var last := runs[n];
    var e := last[|last| - 1];
    var before := runs[..n];
    if |last| > 1 {
      before := before + [last[..|last| - 1]];
    }
    SplitWithoutLast(attempt, seat, runs, before);
    SplitIsAccepted(attempt, seat, before);
    var g := AcceptAll(NewGate(attempt, seat), Flatten(before)).value;
    var frames := Flatten(runs);
    assert frames[..|frames| - 1] == Flatten(before) && frames[|frames| - 1] == e;
    if |last| == 1 {
      assert runs == Started(before, e);
      StartsRun(g, attempt, seat, before, e);
    } else {
      assert before[..n] == runs[..n] && before[n] + [e] == last;
      assert runs == Extended(before, e);
      ExtendsRun(g, attempt, seat, before, e);
    }
  }

  lemma SplitWithoutLast(attempt: Text, seat: Seat, runs: seq<seq<Envelope>>, before: seq<seq<Envelope>>)
    requires Split(attempt, seat, runs) && runs != []
    requires var last := runs[|runs| - 1];
             before == runs[..|runs| - 1] + (if |last| == 1 then [] else [last[..|last| - 1]])
    ensures Split(attempt, seat, before)
    ensures var last := runs[|runs| - 1];
            Flatten(runs) == Flatten(before) + [last[|last| - 1]]
  {
    var n := |runs| - 1;
    var last := runs[n];
    assert forall k :: 0 <= k < n ==> before[k] == runs[k];
    if |last| == 1 {
      assert before == runs[..n] && last == [last[0]];
    } else {
      assert before[n] == last[..|last| - 1];
      assert IsRun(attempt, seat, before[n]);
      assert before[..n] == runs[..n];
      assert last == last[..|last| - 1] + [last[|last| - 1]];
    }
  }

  // The gate accepts exactly a language: concatenations of runs of pairwise distinct epochs.
  lemma GateLanguage(attempt: Text, seat: Seat, frames: seq<Envelope>)
    ensures AcceptAll(NewGate(attempt, seat), frames).Ok? <==> InLanguage(attempt, seat, frames)
  {
    if AcceptAll(NewGate(attempt, seat), frames).Ok? {
      var runs := RunsOfAccepted(attempt, seat, frames);
    }
    if InLanguage(attempt, seat, frames) {
      var runs :| Split(attempt, seat, runs) && Flatten(runs) == frames;
      SplitIsAccepted(attempt, seat, runs);
    }
  }

  // A single run is accepted frame by frame, and the gate then stands at its end.
  lemma RunIsAccepted(attempt: Text, seat: Seat, run: seq<Envelope>)
    requires IsRun(attempt, seat, run)
    ensures AcceptAll(NewGate(attempt, seat), run) == Ok(Gate(attempt, seat, Some(run[0].epoch), |run|, {}))
  {
    hide AcceptAll, AcceptFrame;
    assert Flatten([run]) == run by {
      assert [run][..0] == [];
    }
    assert Split(attempt, seat, [run]);
    SplitIsAccepted(attempt, seat, [run]);
    var g := AcceptAll(NewGate(attempt, seat), run).value;
    assert [run][0] == run && g.retired == {};
  }
}
