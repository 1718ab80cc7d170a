/** src/bluetooth/transport.rs: the life of the optional resources held by `BluerTransport`. */
module Transport {
  import opened Bytes
  import opened Collections

  /** What BlueZ replies: an error, or a value of its choice. */
  datatype Answer<+T> = Fails | Gives(value: T)

  datatype Observation =
    | AdapterPoweredOff | Advertising | DeviceNotBonded | WaitingForPhone | WaitingForServices
    | WaitingForAuthorization | Available | Ready

  /** Which optional fields are held; `baseline` is the advertising count before registration. */
  datatype Resources = Resources(session: bool, adapter: bool, registrations: bool, baseline: Option<nat>,
                                 characteristics: bool, subscriptions: bool, deviceName: Option<Text>)

  const RELEASED: Resources := Resources(false, false, false, None, false, false, None)

  /** The answers of one reconciliation, in the order the code asks for them. */
  datatype Bus = Bus(
    sessionOpens: bool, adapterFound: bool, powered: Answer<bool>, activeInstances: Answer<nat>,
    sessionReopens: bool, adapterRefound: bool,
    instancesBefore: Answer<nat>, applicationServed: bool, advertised: bool,
    deviceKnown: Answer<bool>, alias: Answer<Text>, paired: Answer<bool>, connected: Answer<bool>,
    servicesResolved: Answer<bool>, ancsComplete: Answer<bool>)

  datatype SubscribeAnswers = SubscribeAnswers(dataSource: bool, notificationSource: bool)

  datatype Step<+T> = Step(held: Resources, answer: Answer<T>)

  function EnsureBluez(r: Resources, opens: bool, found: bool): Step<()> {
    if !r.session && !opens then Step(r, Fails)
    else
      var r1 := r.(session := true);
      if r1.adapter then Step(r1, Gives(()))
      else if !found then Step(r1, Fails)
      else Step(r1.(adapter := true), Gives(()))
  }

  function EndAncsSession(r: Resources): Resources {
    r.(subscriptions := false, characteristics := false)
  }

  function ResetBluezSession(r: Resources): Resources {
    EndAncsSession(r).(baseline := None, registrations := false, adapter := false, session := false, deviceName := None)
  }

  function RegistrationsAreLive(r: Resources, activeInstances: Answer<nat>): Answer<bool> {
    if r.baseline == None then Gives(!r.registrations)
    else if !r.adapter || activeInstances.Fails? then Fails
    else Gives(activeInstances.value > r.baseline.value)
  }

  /** Gives whether new registrations were made. */
  function EnsureRegistrations(r: Resources, b: Bus): Step<bool> {
    if r.registrations then Step(r, Gives(false))
    else if !r.adapter || b.instancesBefore.Fails? || !b.applicationServed || !b.advertised then Step(r, Fails)
    else Step(r.(registrations := true, baseline := Some(b.instancesBefore.value)), Gives(true))
  }

  /** The part of `reconcile` after registrations are in place. */
  function ObserveDevice(r: Resources, b: Bus): Step<Observation> {
    if b.deviceKnown.Fails? then Step(r, Fails)
    else if !b.deviceKnown.value then Step(r, Gives(DeviceNotBonded))
    else
      var r1 := if b.alias.Gives? && b.alias.value != [] then r.(deviceName := Some(b.alias.value)) else r;
      if b.paired.Fails? then Step(r1, Fails)
      else if !b.paired.value then Step(r1, Gives(DeviceNotBonded))
      else if b.connected.Fails? then Step(r1, Fails)
      else if !b.connected.value then Step(r1, Gives(WaitingForPhone))
      else if b.servicesResolved.Fails? then Step(r1, Fails)
      else if !b.servicesResolved.value then Step(r1, Gives(WaitingForServices))
      else if b.ancsComplete.Fails? then Step(r1, Fails)
      else if !b.ancsComplete.value then Step(r1, Gives(WaitingForAuthorization))
      else Step(r1.(characteristics := true), Gives(if r1.subscriptions then Ready else Available))
  }

  function Register(r: Resources, b: Bus): Step<Observation> {
    var made := EnsureRegistrations(r, b);
    if made.answer.Fails? then Step(made.held, Fails)
    else if made.answer.value then Step(made.held, Gives(Advertising))
    else ObserveDevice(made.held, b)
  }

  function Reconcile(r: Resources, b: Bus): Step<Observation> {
    var bluez := EnsureBluez(r, b.sessionOpens, b.adapterFound);
    if bluez.answer.Fails? || b.powered.Fails? then Step(bluez.held, Fails)
    else if !b.powered.value then Step(bluez.held, Gives(AdapterPoweredOff))
    else if !bluez.held.registrations then Register(bluez.held, b)
    else
      var live := RegistrationsAreLive(bluez.held, b.activeInstances);
      if live.Fails? then Step(bluez.held, Fails)
      else if live.value then Register(bluez.held, b)
      else
        var reopened := EnsureBluez(ResetBluezSession(bluez.held), b.sessionReopens, b.adapterRefound);
        if reopened.answer.Fails? then Step(reopened.held, Fails) else Register(reopened.held, b)
  }

  /** Data Source first; a failure leaves no subscription behind. */
  function Subscribe(r: Resources, a: SubscribeAnswers): Step<()> {
    if r.characteristics && a.dataSource && a.notificationSource then Step(r.(subscriptions := true), Gives(()))
    else Step(r, Fails)
  }

  // ----- the notification streams of a session -----

  datatype Stream = DataStream | NotificationStream

  /** A subscription was made or refused, or a stream was given up. */
  datatype StreamEvent = Opened(stream: Stream) | Refused(stream: Stream) | LetGo(stream: Stream)

  function Change(e: StreamEvent, stream: Stream): int {
    if e == Opened(stream) then 1 else if e == LetGo(stream) then -1 else 0
  }

  function OpenStreams(events: seq<StreamEvent>, stream: Stream): int {
    if events == [] then 0
    else OpenStreams(events[..|events| - 1], stream) + Change(events[|events| - 1], stream)
  }

  /** The Notification Source is asked for only while a Data Source stream is open. */
  predicate DataSourceFirst(events: seq<StreamEvent>) {
    events == [] ||
    var before, last := events[..|events| - 1], events[|events| - 1];
    DataSourceFirst(before) && (last.stream.NotificationStream? && !last.LetGo? ==> OpenStreams(before, DataStream) > 0)
  }

  lemma OneMoreEvent(events: seq<StreamEvent>, e: StreamEvent)
    ensures OpenStreams(events + [e], DataStream) == OpenStreams(events, DataStream) + Change(e, DataStream)
    ensures OpenStreams(events + [e], NotificationStream)
         == OpenStreams(events, NotificationStream) + Change(e, NotificationStream)
    ensures DataSourceFirst(events + [e])
       <==> DataSourceFirst(events)
            && (e.stream.NotificationStream? && !e.LetGo? ==> OpenStreams(events, DataStream) > 0)
  {
    assert (events + [e])[..|events|] == events;
  }

  /** Subscriptions need characteristics, registrations an adapter and a baseline, an adapter a session. */
  predicate Consistent(r: Resources) {
    && (r.subscriptions ==> r.characteristics && r.registrations)
    && (r.registrations <==> r.baseline.Some?)
    && (r.registrations ==> r.adapter)
    && (r.adapter ==> r.session)
  }

  lemma RegisterKeepsResources(r: Resources, b: Bus)
    requires Consistent(r) && r.adapter
    ensures var s := Register(r, b);
            && Consistent(s.held)
            && s.held.subscriptions == r.subscriptions
            && (s.answer == Gives(Ready) ==> s.held.subscriptions)
            && (s.answer == Gives(Available) ==> !s.held.subscriptions && s.held.characteristics && s.held.registrations)
  {}

  /**
   * Reconciliation keeps the resources consistent and never acquires a subscription by itself; it reports Ready only
   * while subscriptions are held and Available only when none was held to begin with and one can now be made.
   */
  lemma ReconcileKeepsResources(r: Resources, b: Bus)
    requires Consistent(r)
    ensures var s := Reconcile(r, b);
            && Consistent(s.held)
            && (s.held.subscriptions ==> r.subscriptions)
            && (s.answer == Gives(Ready) ==> s.held.subscriptions)
            && (s.answer == Gives(Available) ==> !r.subscriptions && !s.held.subscriptions && s.held.characteristics
                                                 && s.held.registrations)
  {
    var bluez := EnsureBluez(r, b.sessionOpens, b.adapterFound);
    if bluez.answer.Gives? {
      RegisterKeepsResources(bluez.held, b);
      var reopened := EnsureBluez(ResetBluezSession(bluez.held), b.sessionReopens, b.adapterRefound);
      if reopened.answer.Gives? {
        RegisterKeepsResources(reopened.held, b);
        FreshRegistrationAdvertises(reopened.held, b);
      }
    }
    hide Register;
  }

  /** Without registrations a reconciliation can only make them, or fail. */
  lemma FreshRegistrationAdvertises(r: Resources, b: Bus)
    requires !r.registrations
    ensures Register(r, b).answer.Fails? || Register(r, b).answer == Gives(Advertising)
  {}
}
