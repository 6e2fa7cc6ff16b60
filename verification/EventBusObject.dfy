/**
 The event bus as an object.  Its fields are grouped as in `EventBus`; each method is one
 atomic stretch of `publish()`, `start()` or `stop()`, written in the order in which the
 stretch updates the object.  It refines the step of the same name and keeps `Valid()`.
 */
module EventBusObject {
  import opened Common
  import opened EventBus
  import opened EventBusSafety

  class PubSubEventBus {
    var control: Control
    var clients: Clients
    var pulls: Pulls
    var traffic: Traffic

    ghost function State(): Bus
      reads this
    {
      Bus(control, clients, pulls, traffic)
    }

    ghost predicate Valid()
      reads this
    {
      Good(State())
    }

    constructor ()
      ensures State() == FRESH && Valid()
    {
      control, clients, pulls, traffic := FRESH.control, FRESH.clients, FRESH.pulls, FRESH.traffic;
    }

    /** Get the publish executor and submit to it; refused once `stop()` has begun. */
    method Submit(client: nat, message: nat)
      modifies this`traffic
      ensures State() == Send(old(State()), client, message)
    {
      if control.stopped { return; }
      var t := traffic;
      if t.pool.None? {
        t := t.(pool := Some(t.nextPool), nextPool := t.nextPool + 1);
      }
      var job := Job(t.pool.value, client, message);
      traffic := t.(jobs := t.jobs + multiset{job}, submitted := t.submitted + multiset{job});
    }

    method EnterPublish(message: nat)
      requires Valid()
      modifies this
      ensures State() == PublishStep(old(State()), message) && Valid()
    {
      StepGood(State(), Publish(message));
      if control.stopped || control.stopping { return; }
      if clients.publisher.Some? {
        Submit(clients.publisher.value, message);
      } else {
        var c := clients.next;
        clients := clients.(next := c + 1, constructing := clients.constructing + {c},
        waiters := clients.waiters[c := Waiter(control.generation, message)]);
      }
    }

    /** The shielded construction of `c` is over: install it, or leave it to a background closer. */
    method ResumePublish(c: nat)
      requires Valid() && c in clients.waiters && c in clients.built
      modifies this
      ensures State() == PublishResumesStep(old(State()), c) && Valid()
      ensures old(clients.publisher.Some?) ==> clients.publisher == old(clients.publisher)
    {
      StepGood(State(), PublishResumes(c));
      var w := clients.waiters[c];
      if control.stopped || control.stopping || control.generation != w.generation {
        clients := Discard(clients, c);
      } else if clients.publisher.None? {
        clients := Install(clients, c);
        Submit(c, w.message);
      } else {
        clients := Discard(clients, c);
        Submit(clients.publisher.value, w.message);
      }
    }

    method EnterStart()
      requires Valid()
      modifies this
      ensures State() == StartEntersStep(old(State())) && Valid()
    {
      StepGood(State(), StartEnters);
      if control.started || !clients.start.NoStart? { return; }
      if pulls.handlers == [] {
        control := control.(started := true, startedAt := control.generation);
      } else {
        var c := clients.next;
        clients := clients.(next := c + 1, constructing := clients.constructing + {c},
        start := Building(c, control.generation));
      }
    }

    /** The shielded construction is over: spawn the pull tasks, or give the client up. */
    method ResumeStart() returns (ok: bool)
      requires Valid() && clients.start.Building? && clients.start.client in clients.built
      modifies this
      ensures State() == StartResumesStep(old(State())) && Valid()
      ensures ok <==> old(!control.stopped && control.generation == clients.start.generation)
      ensures ok ==> control.started && clients.subscriber == Some(old(clients.start.client))
      ensures ok ==> |pulls.loops| == |pulls.handlers|
      ensures !ok ==> pulls.loops == [] && clients.subscriber.None? && old(clients.start.client) in clients.closing
    {
      StepGood(State(), StartResumes);
      var c, generation := clients.start.client, clients.start.generation;
      if control.stopping || control.stopped || control.generation != generation {
        clients := AbortStart(clients);
        return false;
      }
      clients := InstallSubscriber(clients);
      var tasks: seq<Loop> := SpawnAll(pulls.handlers);
      pulls := pulls.(pool := true, loops := tasks, unmarked := {});
      control := control.(started := true, startedAt := generation);
      ok := true;
    }

    method BeginStop()
      requires Valid()
      modifies this
      ensures State() == StopBeginsStep(old(State())) && Valid()
      ensures old(control.stop.NoStop?) ==> control.stopped && control.generation == old(control.generation) + 1
    {
      StepGood(State(), StopBegins);
      if !control.stop.NoStop? { return; }
      control := control.(stopped := true, stopping := true, generation := control.generation + 1);
      if clients.subscriber.Some? {
        control := control.(stop := ClosingSubscriber(clients.subscriber.value));
        clients := ReleaseSubscriber(clients);
      } else {
        control := control.(stop := Gathering);
      }
    }

    method TakeOutPublisher()
      modifies this
      ensures State() == StopPublisher(old(State()))
    {
      if clients.publisher.None? {
        control := control.(stop := Finishing(true));
      } else {
        control := control.(stop := StoppingPublisher(clients.publisher.value));
        clients := ReleasePublisher(clients);
      }
    }

    /** `stop()` continues from the await it is suspended on, if what it awaits is over. */
    method AdvanceStop()
      requires Valid()
      modifies this
      ensures State() == StopAdvancesStep(old(State())) && Valid()
    {
      StepGood(State(), StopAdvances);
      match control.stop
      case NoStop =>
      case ClosingSubscriber(c) => if c !in clients.closing { control := control.(stop := Gathering); }
      case Gathering =>
        if AllEnded(pulls.loops) {
          control, pulls := control.(stop := DrainingPulls), pulls.(pool := false);
        }
      case DrainingPulls =>
        if traffic.pool.Some? {
          control := control.(stop := DrainingPublishes(traffic.pool.value));
          traffic := traffic.(pool := None);
        } else {
          TakeOutPublisher();
        }
      case DrainingPublishes(e) => if PoolEmpty(traffic, e) { TakeOutPublisher(); }
      case StoppingPublisher(c) => if c !in clients.closing { control := control.(stop := Finishing(true)); }
      case Finishing(complete) =>
        if AllEnded(pulls.loops) {
          pulls := pulls.(loops := [], failed := {});
          control := control.(stopping := false, stop := NoStop);
          if complete { control := control.(stopped := false, started := false); }
        }
    }
  }

  /** The loop in `start()` that creates one pull task per subscribed topic. */
  method SpawnAll(topics: seq<string>) returns (tasks: seq<Loop>)
    ensures tasks == FreshLoops(topics)
  {
    tasks := [];
    for i := 0 to |topics|
      invariant tasks == FreshLoops(topics[..i])
    {
      tasks := tasks + [Loop(topics[i], Scheduled)];
    }
    assert topics[..|topics|] == topics;
  }
}
