/** The imperative `BluerTransport`, proved to implement the functions of module Transport. */
module BluezTransport {
  import opened Bytes
  import opened Collections
  import opened Transport

  class BluerTransport {
    var session: bool
    var adapter: bool
    var registrations: bool
    var baseline: Option<nat>
    var characteristics: bool
    var subscriptions: bool
    var deviceName: Option<Text>
    ghost var streams: seq<StreamEvent>

    /** A pair of streams is open exactly while subscriptions are held, and Data Source always came first. */
    ghost predicate Paired()
      reads this
    {
      var n := if subscriptions then 1 else 0;
      DataSourceFirst(streams) && OpenStreams(streams, DataStream) == OpenStreams(streams, NotificationStream) == n
    }

    function State(): Resources
      reads this
    {
      Resources(session, adapter, registrations, baseline, characteristics, subscriptions, deviceName)
    }

    constructor ()
      ensures State() == RELEASED && Paired()
    {
      streams := [];
      session, adapter, registrations, baseline := false, false, false, None;
      characteristics, subscriptions, deviceName := false, false, None;
    }

    method EnsureBluez(opens: bool, found: bool) returns (ok: bool)
      modifies this`session, this`adapter
      ensures Step(State(), if ok then Gives(()) else Fails) == Transport.EnsureBluez(old(State()), opens, found)
    {
      if !session {
        if !opens {
          return false;
        }
        session := true;
      }
      if !adapter {
        if !found {
          return false;
        }
        adapter := true;
      }
      return true;
    }

    method EndAncsSession()
      modifies this
      ensures State() == Transport.EndAncsSession(old(State())) && (old(Paired()) ==> Paired())
    {
      if subscriptions {
        LetPairGo();
      }
      subscriptions := false;
      characteristics := false;
    }

    ghost method Note(e: StreamEvent)
      modifies this`streams
      ensures streams == old(streams) + [e]
      ensures OpenStreams(streams, DataStream) == OpenStreams(old(streams), DataStream) + Change(e, DataStream)
      ensures OpenStreams(streams, NotificationStream)
           == OpenStreams(old(streams), NotificationStream) + Change(e, NotificationStream)
      ensures DataSourceFirst(streams)
         <==> DataSourceFirst(old(streams))
              && (e.stream.NotificationStream? && !e.LetGo? ==> OpenStreams(old(streams), DataStream) > 0)
    {
      OneMoreEvent(streams, e);
      streams := streams + [e];
    }

    ghost method LetPairGo()
      modifies this`streams
      ensures OpenStreams(streams, DataStream) == OpenStreams(old(streams), DataStream) - 1
      ensures OpenStreams(streams, NotificationStream) == OpenStreams(old(streams), NotificationStream) - 1
      ensures DataSourceFirst(old(streams)) ==> DataSourceFirst(streams)
      ensures streams == old(streams) + [LetGo(NotificationStream), LetGo(DataStream)]
    {
      hide OpenStreams, DataSourceFirst;
      Note(LetGo(NotificationStream));
      Note(LetGo(DataStream));
    }

    method ResetBluezSession()
      modifies this
      ensures State() == Transport.ResetBluezSession(old(State())) && (old(Paired()) ==> Paired())
    {
      EndAncsSession();
      baseline := None;
      registrations := false;
      adapter := false;
      session := false;
      deviceName := None;
    }

    method EnsureRegistrations(b: Bus) returns (made: Answer<bool>)
      modifies this`registrations, this`baseline
      ensures Step(State(), made) == Transport.EnsureRegistrations(old(State()), b)
    {
      if registrations {
        return Gives(false);
      }
      if !adapter || b.instancesBefore.Fails? || !b.applicationServed || !b.advertised {
        return Fails;
      }
      registrations := true;
      baseline := Some(b.instancesBefore.value);
      return Gives(true);
    }

    method Register(b: Bus) returns (seen: Answer<Observation>)
      modifies this`registrations, this`baseline, this`deviceName, this`characteristics
      ensures Step(State(), seen) == Transport.Register(old(State()), b)
    {
      var made := EnsureRegistrations(b);
      if made.Fails? {
        return Fails;
      }
      if made.value {
        return Gives(Advertising);
      }
      if b.deviceKnown.Fails? {
        return Fails;
      }
      if !b.deviceKnown.value {
        return Gives(DeviceNotBonded);
      }
      if b.alias.Gives? && b.alias.value != [] {
        deviceName := Some(b.alias.value);
      }
      if b.paired.Fails? {
        return Fails;
      }
      if !b.paired.value {
        return Gives(DeviceNotBonded);
      }
      if b.connected.Fails? {
        return Fails;
      }
      if !b.connected.value {
        return Gives(WaitingForPhone);
      }
      if b.servicesResolved.Fails? {
        return Fails;
      }
      if !b.servicesResolved.value {
        return Gives(WaitingForServices);
      }
      if b.ancsComplete.Fails? {
        return Fails;
      }
      if !b.ancsComplete.value {
        return Gives(WaitingForAuthorization);
      }
      characteristics := true;
      return Gives(if subscriptions then Ready else Available);
    }

    method Reconcile(b: Bus) returns (seen: Answer<Observation>)
      modifies this
      ensures Step(State(), seen) == Transport.Reconcile(old(State()), b) && (old(Paired()) ==> Paired())
    {
      var ok := EnsureBluez(b.sessionOpens, b.adapterFound);
      if !ok || b.powered.Fails? {
        return Fails;
      }
      if !b.powered.value {
        return Gives(AdapterPoweredOff);
      }
      if registrations {
        var live := RegistrationsAreLive(State(), b.activeInstances);
        if live.Fails? {
          return Fails;
        }
        if !live.value {
          ResetBluezSession();
          ok := EnsureBluez(b.sessionReopens, b.adapterRefound);
          if !ok {
            return Fails;
          }
        }
      }
      seen := Register(b);
    }

    /** One subscription, answered by BlueZ. */
    method Notify(stream: Stream, answer: bool) returns (ok: bool)
      modifies this`streams
      ensures ok == answer && streams == old(streams) + [if ok then Opened(stream) else Refused(stream)]
      ensures OpenStreams(streams, DataStream)
           == OpenStreams(old(streams), DataStream) + if ok && stream.DataStream? then 1 else 0
      ensures OpenStreams(streams, NotificationStream)
           == OpenStreams(old(streams), NotificationStream) + if ok && stream.NotificationStream? then 1 else 0
      ensures DataSourceFirst(streams)
         <==> DataSourceFirst(old(streams)) && (stream.NotificationStream? ==> OpenStreams(old(streams), DataStream) > 0)
    {
      hide OpenStreams, DataSourceFirst;
      Note(if answer then Opened(stream) else Refused(stream));
      ok := answer;
    }

    /** Streams already held are given up only when a new pair has replaced them. */
    method Subscribe(a: SubscribeAnswers) returns (ok: bool)
      modifies this`subscriptions, this`streams
      ensures Step(State(), if ok then Gives(()) else Fails) == Transport.Subscribe(old(State()), a)
      ensures old(Paired()) ==> Paired()
      ensures ok ==> old(streams) + [Opened(DataStream), Opened(NotificationStream)] <= streams
    {
      hide OpenStreams, DataSourceFirst;
      if !characteristics {
        return false;
      }
      ok := Notify(DataStream, a.dataSource);
      if !ok {
        return;
      }
      ok := Notify(NotificationStream, a.notificationSource);
      if !ok {
        Note(LetGo(DataStream));
        return;
      }
      if subscriptions {
        LetPairGo();
      }
      subscriptions := true;
      return true;
    }

    method Shutdown()
      modifies this
      ensures State() == RELEASED && (old(Paired()) ==> Paired())
    {
      ResetBluezSession();
    }
  }
}
