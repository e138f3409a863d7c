/** Which request a reply reaches, over every run, timeouts and failures included. */
module SmtpRequests {
  import opened Sequences
  import opened Sorting
  import opened TextSplit
  import opened SmtpWire

  /** The answers that are replies, in order. */
  function Delivered(answers: seq<Answer>): seq<Answer> {
    if answers == [] then []
    else
      var a := answers[|answers| - 1];
      Delivered(answers[..|answers| - 1]) + if a.Reply? then [a] else []
  }

  /** The requests that got a reply, in the order of the replies. */
  function Served(answers: seq<Answer>): seq<nat> {
    if answers == [] then []
    else
      var a := answers[|answers| - 1];
      Served(answers[..|answers| - 1]) + if a.Reply? then [a.request] else []
  }

  function RejectedIds(answers: seq<Answer>): set<nat> {
    set a | a in answers && a.Rejected? :: a.request
  }

  /** The requests that are not rejected, in order. */
  function Remaining(requests: seq<nat>, rejected: set<nat>): seq<nat> {
    if requests == [] then []
    else
      var last := requests[|requests| - 1];
      Remaining(requests[..|requests| - 1], rejected) + if last in rejected then [] else [last]
  }

  // ---------------------------------------------------------------- what remains of a list

  lemma RemainingNext(requests: seq<nat>, id: nat, rejected: set<nat>)
    ensures Remaining(requests + [id], rejected) == Remaining(requests, rejected) + if id in rejected then [] else [id]
  {
    assert (requests + [id])[..|requests|] == requests;
  }

  lemma {:induction false} RemainingConcat(a: seq<nat>, b: seq<nat>, rejected: set<nat>)
    ensures Remaining(a + b, rejected) == Remaining(a, rejected) + Remaining(b, rejected)
    decreases |b|
  {
    if b == [] {
      assert a + b == a;
    } else {
      var init, last := b[..|b| - 1], b[|b| - 1];
      RemainingConcat(a, init, rejected);
      RemainingNext(a + init, last, rejected);
      Regroup(a, init, [last]);
      assert b == init + [last];
      Regroup(Remaining(a, rejected), Remaining(init, rejected), if last in rejected then [] else [last]);
    }
  }

  lemma {:induction false} RemainingMembers(requests: seq<nat>, rejected: set<nat>)
    ensures forall id :: id in Remaining(requests, rejected) <==> id in requests && id !in rejected
    ensures |Remaining(requests, rejected)| <= |requests|
  {
    if requests != [] {
      var init, last := requests[..|requests| - 1], requests[|requests| - 1];
      RemainingMembers(init, rejected);
      assert requests == init + [last];
    }
  }

  lemma {:induction false} RemainingAll(requests: seq<nat>, rejected: set<nat>)
    requires forall i :: 0 <= i < |requests| ==> requests[i] !in rejected
    ensures Remaining(requests, rejected) == requests
  {
    if requests != [] {
      RemainingAll(requests[..|requests| - 1], rejected);
    }
  }

  lemma RemainingShorter(requests: seq<nat>, rejected: set<nat>, i: nat)
    requires i < |requests| && requests[i] in rejected
    ensures |Remaining(requests, rejected)| < |requests|
  {
    var before, after := requests[..i + 1], requests[i + 1..];
    assert requests == before + after && before == requests[..i] + [requests[i]];
    RemainingConcat(before, after, rejected);
    RemainingNext(requests[..i], requests[i], rejected);
    RemainingMembers(requests[..i], rejected);
    RemainingMembers(after, rejected);
  }

  lemma {:induction false} NoneRemain(requests: seq<nat>, rejected: set<nat>)
    requires forall id :: id in requests ==> id in rejected
    ensures Remaining(requests, rejected) == []
  {
    if requests != [] {
      NoneRemain(requests[..|requests| - 1], rejected);
    }
  }

  lemma {:induction false} RemainingTwice(requests: seq<nat>, first: set<nat>, second: set<nat>)
    ensures Remaining(Remaining(requests, first), second) == Remaining(requests, first + second)
  {
    if requests != [] {
      var init, last := requests[..|requests| - 1], requests[|requests| - 1];
      RemainingTwice(init, first, second);
      if last in first {
        assert Remaining(requests, first) == Remaining(init, first);
      } else {
        RemainingNext(Remaining(init, first), last, second);
      }
    }
  }

  lemma {:induction false} RemainingDistinct(requests: seq<nat>, rejected: set<nat>)
    requires Distinct(requests)
    ensures Distinct(Remaining(requests, rejected))
  {
    if requests != [] {
      var init, last := requests[..|requests| - 1], requests[|requests| - 1];
      RemainingDistinct(init, rejected);
      RemainingMembers(init, rejected);
      assert last !in init;
    }
  }

  lemma {:induction false} RemainingOne(waiters: seq<nat>, id: nat)
    requires Distinct(waiters) && id in waiters
    ensures Remaining(waiters, {id}) == Without(waiters, id)
    decreases |waiters|
  {
    var first, rest := waiters[0], waiters[1..];
    assert waiters == [first] + rest;
    RemainingConcat([first], rest, {id});
    assert [first][..0] == [];
    assert Remaining([first], {id}) == if first == id then [] else [first];
    if first == id {
      assert forall i :: 0 <= i < |rest| ==> rest[i] == waiters[i + 1] && rest[i] != id;
      RemainingAll(rest, {id});
    } else {
      assert Distinct(rest) by {
        assert forall i :: 0 <= i < |rest| ==> rest[i] == waiters[i + 1];
      }
      RemainingOne(rest, id);
    }
  }

  /** With distinct ids, the n-th that remains is the n-th exactly if none of the first n + 1
      is rejected. */
  lemma RemainingAt(requests: seq<nat>, rejected: set<nat>, n: nat)
    requires Distinct(requests) && n < |requests|
    ensures (n < |Remaining(requests, rejected)| && Remaining(requests, rejected)[n] == requests[n])
      <==> forall i :: 0 <= i <= n ==> requests[i] !in rejected
  {
    var before, after := requests[..n + 1], requests[n + 1..];
    assert requests == before + after;
    RemainingConcat(before, after, rejected);
    RemainingMembers(after, rejected);
    LastPartDistinct(before, after);
    if forall i :: 0 <= i <= n ==> before[i] !in rejected {
      RemainingAll(before, rejected);
    } else {
      var i :| 0 <= i <= n && before[i] in rejected;
      RemainingShorter(before, rejected, i);
      assert before[n] in before;
      if n < |Remaining(requests, rejected)| {
        AtInLast(Remaining(before, rejected), Remaining(after, rejected), n);
      }
    }
  }

  lemma AtInLast(a: seq<nat>, b: seq<nat>, n: nat)
    requires |a| <= n < |a + b|
    ensures (a + b)[n] in b
  {
    assert (a + b)[n] == b[n - |a|];
  }

  // ---------------------------------------------------------------- every run

  lemma ServedNext(answers: seq<Answer>, a: Answer)
    ensures Served(answers + [a]) == Served(answers) + if a.Reply? then [a.request] else []
    ensures Delivered(answers + [a]) == Delivered(answers) + if a.Reply? then [a] else []
    ensures a.Reply? ==> RejectedIds(answers + [a]) == RejectedIds(answers)
    ensures a.Rejected? ==> RejectedIds(answers + [a]) == RejectedIds(answers) + {a.request}
  {
    var longer := answers + [a];
    assert longer[..|answers|] == answers;
    assert forall x :: x in longer <==> x in answers || x == a;
  }

  /** The requests that have a reply, then those that wait for one. */
  function Alive(w: Wire): seq<nat> {
    Served(w.answers) + w.waiters
  }

  lemma {:induction false} ArrivalsServe(w: Wire, lines: seq<string>)
    ensures Alive(AllArrived(w, lines)) == Alive(w)
    ensures RejectedIds(AllArrived(w, lines).answers) == RejectedIds(w.answers)
    decreases |lines|
  {
    if lines != [] {
      if IsFinal(lines[0]) && w.waiters != [] {
        ServedNext(w.answers, Reply(w.waiters[0], Join(w.lines + [lines[0]], "\n")));
        Regroup(Served(w.answers), [w.waiters[0]], w.waiters[1..]);
        assert w.waiters == [w.waiters[0]] + w.waiters[1..];
      }
      ArrivalsServe(Arrived(w, lines[0]), lines[1..]);
    }
  }

  lemma RejectAllServe(answers: seq<Answer>, waiters: seq<nat>, reason: string)
    ensures Served(answers + RejectAll(waiters, reason)) == Served(answers)
    ensures RejectedIds(answers + RejectAll(waiters, reason)) == RejectedIds(answers) + (set id | id in waiters)
  {
    RejectAllIds(waiters, reason);
    RejectedServe(answers, RejectAll(waiters, reason));
    RejectedConcat(answers, RejectAll(waiters, reason));
  }

  lemma RejectedConcat(a: seq<Answer>, b: seq<Answer>)
    ensures RejectedIds(a + b) == RejectedIds(a) + RejectedIds(b)
  {
    forall id | id in RejectedIds(a) + RejectedIds(b) ensures id in RejectedIds(a + b) {
      var x :| (x in a || x in b) && x.Rejected? && x.request == id;
      assert x in a + b;
    }
  }

  lemma {:induction false} RejectAllIds(waiters: seq<nat>, reason: string)
    ensures forall a :: a in RejectAll(waiters, reason) ==> a.Rejected?
    ensures RejectedIds(RejectAll(waiters, reason)) == set id | id in waiters
  {
    if waiters != [] {
      var first, rest := Rejected(waiters[0], reason), RejectAll(waiters[1..], reason);
      RejectAllIds(waiters[1..], reason);
      FirstMember(waiters);
      RejectedConcat([first], rest);
      assert first in [first];
    }
  }

  lemma {:induction false} RejectedServe(answers: seq<Answer>, more: seq<Answer>)
    requires forall a :: a in more ==> a.Rejected?
    ensures Served(answers + more) == Served(answers)
    decreases |more|
  {
    if more == [] {
      assert answers + more == answers;
    } else {
      var init, last := more[..|more| - 1], more[|more| - 1];
      assert more == init + [last];
      Regroup(answers, init, [last]);
      ServedNext(answers + init, last);
      RejectedServe(answers, init);
    }
  }

  lemma FirstMember(s: seq<nat>)
    requires s != []
    ensures (set id | id in s) == {s[0]} + (set id | id in s[1..])
  {
    assert forall id :: id in s <==> id == s[0] || id in s[1..];
  }

  /** The wire against the requests made so far. */
  ghost predicate Agrees(w: Wire, requests: seq<nat>) {
    && Alive(w) == Remaining(requests, RejectedIds(w.answers))
    && forall id :: id in RejectedIds(w.answers) ==> id in requests
  }

  lemma RequestAgrees(w: Wire, requests: seq<nat>, id: nat)
    requires Agrees(w, requests) && id !in requests && (w.replies == [] || w.waiters == [])
    requires w.failure.Some? ==> w.waiters == []
    ensures Agrees(Requested(w, id), requests + [id])
  {
    var v := Requested(w, id);
    RemainingNext(requests, id, RejectedIds(w.answers));
    assert id !in RejectedIds(w.answers);
    if w.replies != [] {
      ServedNext(w.answers, Reply(id, w.replies[0]));
      assert Alive(v) == Alive(w) + [id];
    } else if w.failure.Some? {
      RefusedAgrees(w, requests, id, w.failure.value);
    } else {
      Regroup(Served(w.answers), w.waiters, [id]);
    }
  }

  lemma RefusedAgrees(w: Wire, requests: seq<nat>, id: nat, reason: string)
    requires Agrees(w, requests) && id !in requests
    ensures Agrees(w.(answers := w.answers + [Rejected(id, reason)]), requests + [id])
  {
    var rejected := RejectedIds(w.answers);
    ServedNext(w.answers, Rejected(id, reason));
    RemainingWithout(requests, id, rejected);
  }

  lemma RemainingWithout(requests: seq<nat>, id: nat, rejected: set<nat>)
    requires id !in requests
    ensures Remaining(requests + [id], rejected + {id}) == Remaining(requests, rejected)
  {
    RemainingNext(requests, id, rejected + {id});
    RemainingTwice(requests, rejected, {id});
    RemainingMembers(requests, rejected);
    RemainingAll(Remaining(requests, rejected), {id});
  }

  /** Taking waiting requests out of the list. */
  lemma TakenOut(served: seq<nat>, waiters: seq<nat>, requests: seq<nat>, rejected: set<nat>, more: set<nat>)
    requires Distinct(requests) && served + waiters == Remaining(requests, rejected)
    requires forall id :: id in more ==> id in waiters
    ensures Remaining(requests, rejected + more) == served + Remaining(waiters, more)
    ensures Distinct(waiters) && forall id :: id in more ==> id in requests
  {
    RemainingTwice(requests, rejected, more);
    RemainingDistinct(requests, rejected);
    RemainingMembers(requests, rejected);
    LastPartDistinct(served, waiters);
    RemainingConcat(served, waiters, more);
    assert forall id :: id in waiters ==> id !in served;
    assert forall i :: 0 <= i < |served| ==> served[i] in served && served[i] !in more;
    RemainingAll(served, more);
    forall id | id in more ensures id in requests {
      assert id in served + waiters;
    }
  }

  lemma TimeoutAgrees(w: Wire, requests: seq<nat>, id: nat)
    requires Agrees(w, requests) && Distinct(requests)
    ensures Agrees(TimedOut(w, id), requests)
  {
    if id in w.waiters {
      ServedNext(w.answers, Rejected(id, TIMED_OUT));
      TakenOut(Served(w.answers), w.waiters, requests, RejectedIds(w.answers), {id});
      RemainingOne(w.waiters, id);
      assert Served(w.answers) + [] == Served(w.answers);
    }
  }

  lemma LastPartDistinct(a: seq<nat>, b: seq<nat>)
    requires Distinct(a + b)
    ensures Distinct(b) && forall x :: x in b ==> x !in a
  {
    var all := a + b;
    assert forall k :: 0 <= k < |b| ==> all[|a| + k] == b[k];
    assert forall i :: 0 <= i < |a| ==> all[i] == a[i];
  }

  lemma FailureAgrees(w: Wire, requests: seq<nat>, reason: string)
    requires Agrees(w, requests) && Distinct(requests)
    ensures Agrees(Failed(w, reason), requests)
  {
    if w.failure.None? {
      var waiting := set id | id in w.waiters;
      RejectAllServe(w.answers, w.waiters, reason);
      TakenOut(Served(w.answers), w.waiters, requests, RejectedIds(w.answers), waiting);
      NoneRemain(w.waiters, waiting);
    }
  }

  lemma {:induction false} RequestsDistinct(events: seq<Event>)
    requires events != [] && Distinct(Requests(events))
    ensures Distinct(Requests(events[..|events| - 1]))
    ensures events[|events| - 1].Request? ==> events[|events| - 1].id !in Requests(events[..|events| - 1])
  {
    var init, last := events[..|events| - 1], events[|events| - 1];
    var before, all := Requests(init), Requests(events);
    assert before <= all;
    if last.Request? {
      assert all == before + [last.id] && all[|before|] == last.id;
      assert forall i :: 0 <= i < |before| ==> all[i] == before[i];
    }
  }

  /** Over every run: the requests that got a reply, in the order of the replies, followed by
      those that wait, are the requests made, in order, without the rejected ones. */
  lemma {:induction false} RequestsServed(events: seq<Event>)
    requires Distinct(Requests(events))
    ensures Agrees(Run(events), Requests(events))
    decreases |events|
  {
    if events != [] {
      var init, event := events[..|events| - 1], events[|events| - 1];
      RequestsDistinct(events);
      RequestsServed(init);
      RepliesConserved(init);
      assert !event.Request? ==> Requests(events) == Requests(init);
      match event
      case Chunk(text) =>
        var pieces := Split(CrLf, Run(init).buffer + text);
        ArrivalsServe(Run(init).(buffer := Open(pieces)), Closed(pieces));
      case Request(id) => RequestAgrees(Run(init), Requests(init), id);
      case Timeout(id) => TimeoutAgrees(Run(init), Requests(init), id);
      case Failure(reason) => FailureAgrees(Run(init), Requests(init), reason);
    }
  }

  lemma {:induction false} DeliveredParts(answers: seq<Answer>, k: nat)
    ensures |Delivered(answers)| == |Served(answers)| == |Texts(answers)|
    ensures k < |Delivered(answers)| ==> Delivered(answers)[k] == Reply(Served(answers)[k], Texts(answers)[k])
  {
    if answers != [] {
      DeliveredParts(answers[..|answers| - 1], k);
    }
  }

  /** Over every run with distinct requests: the n-th reply on the wire reaches the n-th
      request if and only if none of the first n + 1 requests was rejected. What happens to
      later requests, or after the replies have come, does not matter. */
  lemma ReplyReachesRequest(events: seq<Event>, n: nat)
    requires Distinct(Requests(events)) && n < |Requests(events)| && n < |Replies(LinesOf(Received(events)))|
    ensures var answers := Run(events).answers;
      && n < |Delivered(answers)|
      && Delivered(answers)[n] == Reply(Requests(events)[n], Replies(LinesOf(Received(events)))[n])
      <==> forall i :: 0 <= i <= n ==> Requests(events)[i] !in RejectedIds(answers)
  {
    var w, requests := Run(events), Requests(events);
    RepliesConserved(events);
    RequestsServed(events);
    RemainingAt(requests, RejectedIds(w.answers), n);
    DeliveredParts(w.answers, n);
    assert n < |Served(w.answers)| ==> Alive(w)[n] == Served(w.answers)[n];
    assert n < |Texts(w.answers)| ==> Texts(w.answers)[n] == Replies(LinesOf(Received(events)))[n];
  }
}
