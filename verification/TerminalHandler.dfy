/** The critical sections of the terminal handler, on maps that are updated in place. */
module TerminalHandler {
  import opened Base
  import opened Terminal

  /** The list has exactly the elements of the set, each once. */
  ghost predicate Lists(list: seq<SessionId>, s: set<SessionId>) {
    (forall id :: id in list <==> id in s) && forall i, j | 0 <= i < j < |list| :: list[i] != list[j]
  }

  method CopySessions(values: set<SessionId>) returns (list: seq<SessionId>)
    ensures Lists(list, values)
  {
    list := [];
    var todo := values;
    while todo != {}
      invariant todo <= values && Lists(list, values - todo)
      decreases |todo|
    {
      var id := Choose(todo);
      list := list + [id];
      todo := todo - {id};
    }
  }

  class Handler {
    var closed: bool
    var generations: map<DeviceId, nat>
    var userCounts: map<UserId, int>
    var byDevice: map<DeviceId, set<SessionId>>
    var sessions: map<SessionId, Session>

    function Now(): Registry
      reads this
    {
      Registry(closed, generations, userCounts, byDevice, sessions)
    }

    ghost predicate Valid()
      reads this
    {
      RegistryFits(Now())
    }

    constructor ()
      ensures Valid() && Now() == NEW_REGISTRY
    {
      closed, generations, userCounts, byDevice, sessions := false, map[], map[], map[], map[];
      new;
      NewFits();
    }

    /** A snapshot a request may carry: good for admission now, and refused once the device is cancelled. */
    method DeviceGeneration(device: DeviceId) returns (generation: nat)
      ensures generation == Generation(Now(), device)
      ensures forall user, done :: !Verdict(Now(), user, device, generation, done).DeviceInvalidated?
      ensures forall user, done :: !Verdict(Advance(Now(), device), user, device, generation, done).Admitted?
    {
      return if device in generations then generations[device] else 0;
    }

    /** Admits a session under a fresh id, unless the handler, the device, the request or the user's limit says no. */
    method Admit(id: SessionId, user: UserId, device: DeviceId, generation: nat, parentDone: bool) returns (reply: Reply)
      requires Valid() && id !in sessions
      modifies this`userCounts, this`byDevice, this`sessions
      ensures reply == Verdict(old(Now()), user, device, generation, parentDone)
      ensures Now() == if reply.Admitted? then Register(old(Now()), id, user, device, generation) else old(Now())
      ensures Valid()
    {
      if closed {
        return HandlerClosed;
      }
      var current := DeviceGeneration(device);
      if current != generation {
        return DeviceInvalidated;
      }
      if parentDone {
        return RequestDone;
      }
      var count := if user in userCounts then userCounts[user] else 0;
      if count >= MAX_PER_USER {
        return TerminalLimit;
      }
      RegisterFits(Now(), id, user, device, generation);
      userCounts := userCounts[user := count + 1];
      byDevice := byDevice[device := (if device in byDevice then byDevice[device] else {}) + {id}];
      sessions := sessions[id := Session(user, device, generation, false, false)];
      return Admitted;
    }

    method ReleaseSession(id: SessionId)
      requires Valid() && id in sessions
      modifies this`userCounts, this`byDevice, this`sessions
      ensures Now() == Release(old(Now()), id) && Valid()
    {
      ReleaseFits(Now(), id);
      var session := sessions[id];
      sessions := sessions[id := session.(done := true)];
      if session.device in byDevice && id in byDevice[session.device] {
        var left := byDevice[session.device] - {id};
        var count := (if session.user in userCounts then userCounts[session.user] else 0) - 1;
        userCounts := if count == 0 then userCounts - {session.user} else userCounts[session.user := count];
        byDevice := if left == {} then byDevice - {session.device} else byDevice[session.device := left];
      }
    }

    /** The first section of CancelDevice: the sessions it returns are cancelled and joined afterwards. */
    method BeginCancelDevice(device: DeviceId) returns (list: seq<SessionId>)
      requires Valid()
      modifies this`generations
      ensures Now() == Advance(old(Now()), device) && Valid() && Lists(list, On(Now(), device))
    {
      SameListFits(Now(), Advance(Now(), device));
      var generation := DeviceGeneration(device);
      generations := generations[device := generation + 1];
      list := CopySessions(if device in byDevice then byDevice[device] else {});
    }

    /** The first section of Close. */
    method BeginClose() returns (list: seq<SessionId>)
      requires Valid()
      modifies this`closed
      ensures Now() == old(Now()).(closed := true) && Valid() && forall id :: id in list <==> id in All(Now())
    {
      SameListFits(Now(), Now().(closed := true));
      closed := true;
      list := [];
      var todo := byDevice.Keys;
      while todo != {}
        invariant todo <= byDevice.Keys && closed
        invariant forall id :: id in list <==> exists d :: d in byDevice && d !in todo && id in byDevice[d]
        decreases |todo|
      {
        var device := Choose(todo);
        var more := CopySessions(byDevice[device]);
        list := list + more;
        todo := todo - {device};
      }
    }
  }
}
