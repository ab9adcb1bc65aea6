/**
 The evidence and delivery tables of InitiativeStore, as values, and every
 transaction on them as a function.  Revision rows are never deleted, so the
 table is a sequence and a revision id is its position.
 */
module Evidence {
  import opened Common
  import Jobs

  const DAY := 86_400_000

  // ---- Tables --------------------------------------------------------------

  datatype Place = Place(channel: string, thread: string)

  datatype ChannelRow = ChannelRow(allowed: bool, shared: bool)

  datatype ThreadRow = ThreadRow(generation: nat, processed: nat, changed: int)

  /** The content hash of a revision, taken to be collision free. */
  datatype Hash = Hash(deleted: bool, automated: bool, text: string)

  datatype Revision = Revision(place: Place, ts: string, version: string, text: string, excerpt: string,
                               deleted: bool, own: bool, bot: bool, captured: int, hash: Hash)

  datatype Observation = Observation(id: string, place: Place, text: string, evidence: seq<nat>)

  datatype ObservationRow = ObservationRow(place: Place, text: string, evidence: seq<nat>, valid: bool)

  datatype MatterState = Open | Snoozed | Resolved | Dismissed

  datatype Matter = Matter(id: string, place: Place, detail: string, evidence: seq<nat>, state: MatterState,
      nextCheck: int, reopen: bool)

  /** The columns place, valid and nextCheck stand beside the serialised body, as in the table. */
  datatype MatterRow = MatterRow(place: Place, body: Matter, valid: bool, nextCheck: int)

  datatype DeliveryState = Pending | Sending | Uncertain | Sent | Cancelled

  datatype Delivery = Delivery(
    text: string, matters: seq<string>, evidence: seq<nat>, digest: bool, state: DeliveryState,
    ts: Option<string>, created: int, slot: Option<int>, proposal: Option<string>)

  datatype Settings = Settings(watermark: real, deliveryEnabled: bool, muted: bool, paused: bool, stopped: bool,
      unfollowed: set<Place>)

  datatype Runner = Runner(owner: string, until: int)

  datatype Store = Store(
    channels: map<string, ChannelRow>,
    threads: map<Place, ThreadRow>,
    revisions: seq<Revision>,
    messages: map<(string, string), nat>,
    events: map<string, int>,
    observations: map<string, ObservationRow>,
    matters: map<string, MatterRow>,
    deliveries: map<string, Delivery>,
    settings: Settings,
    runner: Option<Runner>)

  // ---- Slack timestamps ----------------------------------------------------

  predicate Digits(s: string) {
    |s| > 0 && forall i :: 0 <= i < |s| ==> '0' <= s[i] <= '9'
  }

  /** The timestamp format: digits, a dot, digits. */
  predicate IsStamp(s: string) {
    exists i :: 0 <= i < |s| && s[i] == '.' && Digits(s[..i]) && Digits(s[i + 1..])
  }

  function DigitsBefore(s: string): (n: nat)
    ensures n <= |s|
  {
    if s != [] && '0' <= s[0] <= '9' then 1 + DigitsBefore(s[1..]) else 0
  }

  function Whole(s: string): nat {
    if s == [] then 0
    else Whole(s[..|s| - 1]) * 10 + if '0' <= s[|s| - 1] <= '9' then (s[|s| - 1] - '0') as nat else 0
  }

  function Fraction(s: string): real {
    if s == [] then 0.0
    else ((if '0' <= s[0] <= '9' then (s[0] - '0') as int as real else 0.0) + Fraction(s[1..])) / 10.0
  }

  /** The instant a timestamp names. */
  function Seconds(s: string): real {
    var n := DigitsBefore(s);
    Whole(s[..n]) as real + if n < |s| then Fraction(s[n + 1..]) else 0.0
  }

  // ---- Queries -------------------------------------------------------------

  predicate Allowed(s: Store, channel: string) {
    channel in s.channels && s.channels[channel].allowed
  }

  /** NOT (c.allowed!=1) under a left join: a channel without a row is not barred. */
  predicate NotBarred(s: Store, channel: string) {
    channel in s.channels ==> s.channels[channel].allowed
  }

  /** The revision is the one its message shows now. */
  predicate IsCurrent(s: Store, id: nat) {
    && id < |s.revisions|
    && var key := (s.revisions[id].place.channel, s.revisions[id].ts);
       key in s.messages && s.messages[key] == id
  }

  predicate EvidenceCurrent(s: Store, ids: seq<nat>) {
    ids != [] && forall id :: id in ids ==>
      IsCurrent(s, id) && !s.revisions[id].deleted && s.revisions[id].excerpt != ""
        && NotBarred(s, s.revisions[id].place.channel)
  }

  /** A revision that is gone or whose text has been erased for age. */
  predicate Expired(revisions: seq<Revision>, id: nat) {
    id < |revisions| ==> revisions[id].excerpt == ""
  }

  // ---- Snapshots -----------------------------------------------------------

  datatype Citable = Citable(id: nat, own: bool, bot: bool)

  datatype Snapshot = Snapshot(place: Place, generation: nat, evidence: seq<Citable>)

  predicate Live(s: Store, place: Place, id: nat) {
    IsCurrent(s, id) && s.revisions[id].place == place && !s.revisions[id].deleted
  }

  /**
   What a read of a thread returns: live revisions that still have text, with their flags, under the
   thread's generation.
   */
  predicate SnapshotOf(s: Store, snap: Snapshot) {
    && snap.place in s.threads && Allowed(s, snap.place.channel)
    && snap.generation == s.threads[snap.place].generation
    && forall e :: e in snap.evidence ==>
         && Live(s, snap.place, e.id)
         && (s.revisions[e.id].text != "" || s.revisions[e.id].excerpt != "")
         && e.own == s.revisions[e.id].own && e.bot == s.revisions[e.id].bot
  }

  predicate CurrentSnapshots(s: Store, snaps: seq<Snapshot>) {
    forall snap :: snap in snaps ==>
      snap.place in s.threads && Allowed(s, snap.place.channel) && s.threads[snap.place].generation == snap.generation
  }

  // ---- Invalidation --------------------------------------------------------

  datatype Scope = WholeChannel(channel: string) | Threads(places: set<Place>)

  predicate Covers(scope: Scope, place: Place) {
    match scope
    case WholeChannel(channel) => place.channel == channel
    case Threads(places) => place in places
  }

  function BumpedThreads(threads: map<Place, ThreadRow>, scope: Scope): map<Place, ThreadRow> {
    map p | p in threads ::
      if Covers(scope, p) then threads[p].(generation := threads[p].generation + 1) else threads[p]
  }

  function DroppedObservations(rows: map<string, ObservationRow>, scope: Scope): map<string, ObservationRow> {
    map id | id in rows :: if Covers(scope, rows[id].place) then rows[id].(valid := false) else rows[id]
  }

  function DroppedMatters(rows: map<string, MatterRow>, scope: Scope): map<string, MatterRow> {
    map id | id in rows :: if Covers(scope, rows[id].place) then rows[id].(valid := false) else rows[id]
  }

  /** A waiting delivery that names an invalid matter or cites a revision of the scope. */
  predicate Undermined(d: Delivery, matters: map<string, MatterRow>, revisions: seq<Revision>, scope: Scope) {
    || (exists m :: m in d.matters && m in matters && !matters[m].valid)
    || (exists id :: id in d.evidence && id < |revisions| && Covers(scope, revisions[id].place))
  }

  function CancelledDeliveries(rows: map<string, Delivery>, matters: map<string, MatterRow>,
      revisions: seq<Revision>, scope: Scope)
    : map<string, Delivery>
  {
    map id | id in rows ::
      if rows[id].state == Pending && Undermined(rows[id], matters, revisions, scope)
      then rows[id].(state := Cancelled) else rows[id]
  }

  function Invalidate(s: Store, scope: Scope): Store {
    var matters := DroppedMatters(s.matters, scope);
    s.(threads := BumpedThreads(s.threads, scope),
       observations := DroppedObservations(s.observations, scope),
       matters := matters,
       deliveries := CancelledDeliveries(s.deliveries, matters, s.revisions, scope))
  }

  // ---- Channels ------------------------------------------------------------

  /** `gapGiven` says whether the caller reported on coverage; without it an unchanged row is left alone. */
  function SetChannel(s: Store, id: string, allowed: bool, shared: bool, gapGiven: bool): Store {
    var row := ChannelRow(allowed, shared);
    if !gapGiven && id in s.channels && s.channels[id] == row then s
    else
      var s' := s.(channels := s.channels[id := row]);
      if allowed then s' else Invalidate(s', WholeChannel(id))
  }

  // ---- Source messages -----------------------------------------------------

  /** An empty eventId means the message came without one. */
  datatype Message = Message(place: Place, ts: string, version: string, text: string,
                             deleted: bool, own: bool, bot: bool, context: bool, eventId: string)

  datatype Recording = Skipped | Stored(id: nat) | Duplicate

  function HashOf(m: Message): Hash {
    Hash(m.deleted, m.bot || m.own, m.text)
  }

  function Prefix(text: string, n: nat): string {
    if |text| <= n then text else text[..n]
  }

  function RevisionOf(m: Message, now: int): Revision {
    Revision(m.place, m.ts, m.version, m.text, Prefix(m.text, 2000), m.deleted, m.own, m.bot || m.own, now, HashOf(m))
  }

  /** Malformed, from a channel that is not allowed, or wholly older than the watermark. */
  predicate Refused(s: Store, m: Message) {
    || !IsStamp(m.ts) || !IsStamp(m.version)
    || !Allowed(s, m.place.channel)
    || (!m.context && Seconds(m.ts) < s.settings.watermark && Seconds(m.version) < s.settings.watermark)
  }

  predicate Redelivered(s: Store, m: Message) {
    m.eventId != "" && m.eventId in s.events
  }

  function Seen(s: Store, m: Message, now: int): map<string, int> {
    if m.eventId != "" then s.events[m.eventId := now] else s.events
  }

  /** The revision a message shows now, if it is known. */
  function Known(s: Store, m: Message): Option<nat> {
    if (m.place.channel, m.ts) in s.messages then Some(s.messages[(m.place.channel, m.ts)]) else None
  }

  /** The stored revision already says at least as much: deleted, newer, or the same. */
  predicate Superseded(known: Revision, m: Message) {
    known.deleted || Seconds(known.version) > Seconds(m.version)
      || (known.hash == HashOf(m) && known.version == m.version)
  }

  /** The UNIQUE(channel,ts,version,hash) constraint. */
  predicate Repeats(s: Store, m: Message) {
    exists i :: 0 <= i < |s.revisions| && s.revisions[i].place.channel == m.place.channel && s.revisions[i].ts == m.ts
             && s.revisions[i].version == m.version && s.revisions[i].hash == HashOf(m)
  }

  /** The new revision row and the message pointing at it, before the thread is touched. */
  function Appended(s: Store, m: Message, now: int): Store {
    s.(events := Seen(s, m, now), revisions := s.revisions + [RevisionOf(m, now)],
       messages := s.messages[(m.place.channel, m.ts) := |s.revisions|])
  }

  function TouchedThread(s: Store, place: Place, now: int): Store {
    s.(threads := s.threads[place :=
      if place in s.threads then s.threads[place].(generation := s.threads[place].generation + 1, changed := now)
      else ThreadRow(1, 0, now)])
  }

  function Record(s: Store, m: Message, now: int): (r: (Store, Recording))
    ensures r.0.channels == s.channels && r.0.settings == s.settings
    ensures r.1.Stored? ==> r.0.revisions == s.revisions + [RevisionOf(m, now)]
    ensures r.1.Stored? ==> r.0.messages == s.messages[(m.place.channel, m.ts) := |s.revisions|]
    ensures !r.1.Stored? ==> r.0 == s.(events := r.0.events)
  {
    if Refused(s, m) || Redelivered(s, m) then (s, Skipped)
    else
      var known := Known(s, m);
      if known.Some? && known.value < |s.revisions| && Superseded(s.revisions[known.value], m)
      then (s.(events := Seen(s, m, now)), Skipped)
      else if Repeats(s, m) then (s, Duplicate)
      else
        var id := |s.revisions|;
        var s1 := Appended(s, m, now);
        if m.own then
          if known.Some? && m.place in s.threads then
            var s2 := Invalidate(s1, Threads({m.place}));
            (s2.(threads := s2.threads[m.place := s2.threads[m.place].(changed := now)]), Stored(id))
          else (s1, Stored(id))
        else (Invalidate(TouchedThread(s1, m.place, now), Threads({m.place})), Stored(id))
  }

  // ---- Findings ------------------------------------------------------------

  datatype Item = Item(id: string, place: Place, evidence: seq<nat>)

  datatype Applying = Applied | Stale | OutsideThread | NoHuman | Collision

  function ObservationItems(os: seq<Observation>): (items: seq<Item>)
    ensures |items| == |os|
  {
    seq(|os|, i requires 0 <= i < |os| => Item(os[i].id, os[i].place, os[i].evidence))
  }

  function MatterItems(ms: seq<Matter>): (items: seq<Item>)
    ensures |items| == |ms|
  {
    seq(|ms|, i requires 0 <= i < |ms| => Item(ms[i].id, ms[i].place, ms[i].evidence))
  }

  /** snapshots.find(place) */
  function Find(snaps: seq<Snapshot>, place: Place): Option<Snapshot> {
    if snaps == [] then None else if snaps[0].place == place then Some(snaps[0]) else Find(snaps[1..], place)
  }

  function FindCitable(evidence: seq<Citable>, id: nat): Option<Citable> {
    if evidence == [] then None else if evidence[0].id == id then Some(evidence[0]) else FindCitable(evidence[1..], id)
  }

  /** The place already stored under an id: an observation's, else a matter's. */
  function PlaceOf(s: Store, id: string): Option<Place> {
    if id in s.observations then Some(s.observations[id].place)
    else if id in s.matters then Some(s.matters[id].place)
    else None
  }

  predicate Cites(snap: Snapshot, id: nat) {
    FindCitable(snap.evidence, id).Some?
  }

  predicate Automated(snap: Snapshot, id: nat) {
    FindCitable(snap.evidence, id).Some?
      && (FindCitable(snap.evidence, id).value.own || FindCitable(snap.evidence, id).value.bot)
  }

  function CheckItem(s: Store, snaps: seq<Snapshot>, item: Item): Applying {
    var snap := Find(snaps, item.place);
    if snap.None? || item.evidence == [] || (exists id :: id in item.evidence && !Cites(snap.value, id))
    then OutsideThread
    else if forall id :: id in item.evidence ==> Automated(snap.value, id) then NoHuman
    else if PlaceOf(s, item.id).Some? && PlaceOf(s, item.id) != Some(item.place) then Collision
    else Applied
  }

  /** The first objection, in order, or Applied. */
  function CheckItems(s: Store, snaps: seq<Snapshot>, items: seq<Item>): Applying {
    if items == [] then Applied
    else if CheckItem(s, snaps, items[0]) != Applied then CheckItem(s, snaps, items[0])
    else CheckItems(s, snaps, items[1..])
  }

  function MarkProcessed(s: Store, snaps: seq<Snapshot>): Store
    decreases |snaps|
  {
    if snaps == [] then s
    else
      var snap, s0 := snaps[|snaps| - 1], MarkProcessed(s, snaps[..|snaps| - 1]);
      s0.(observations := DroppedObservations(s0.observations, Threads({snap.place})),
          threads := if snap.place in s0.threads
                     then s0.threads[snap.place := s0.threads[snap.place].(processed := snap.generation)]
                     else s0.threads)
  }

  /** A row keeps the place it was inserted under. */
  function PutObservation(rows: map<string, ObservationRow>, o: Observation): map<string, ObservationRow> {
    rows[o.id := ObservationRow(if o.id in rows then rows[o.id].place else o.place, o.text, o.evidence, true)]
  }

  function PutObservations(rows: map<string, ObservationRow>, os: seq<Observation>): map<string, ObservationRow>
    decreases |os|
  {
    if os == [] then rows else PutObservation(PutObservations(rows, os[..|os| - 1]), os[|os| - 1])
  }

  /** A human revision among the cited ones whose content the earlier citations did not have. */
  predicate NewHumanEvidence(revisions: seq<Revision>, previous: Matter, snaps: seq<Snapshot>, m: Matter) {
    exists snap, e :: snap in snaps && e in snap.evidence
      && e.id in m.evidence && !e.own && !e.bot && e.id < |revisions|
      && forall id :: id in previous.evidence && id < |revisions| ==> revisions[id].hash != revisions[e.id].hash
  }

  /** What the owner decided about a matter survives a new extraction. */
  function Reconciled(rows: map<string, MatterRow>, revisions: seq<Revision>, snaps: seq<Snapshot>, m: Matter): Matter {
    if m.id !in rows then m
    else
      var previous, nextCheck := rows[m.id].body, rows[m.id].nextCheck;
      if previous.state in {Dismissed, Snoozed} && m.state != Resolved
      then m.(state := previous.state, nextCheck := nextCheck)
      else if previous.state == Resolved && m.state == Open
        && !(m.reopen && NewHumanEvidence(revisions, previous, snaps, m))
      then m.(state := Resolved)
      else m
  }

  function PutMatter(rows: map<string, MatterRow>, revisions: seq<Revision>, snaps: seq<Snapshot>,
      m: Matter): map<string, MatterRow> {
    var m' := Reconciled(rows, revisions, snaps, m);
    rows[m.id := MatterRow(if m.id in rows then rows[m.id].place else m.place, m', true, m'.nextCheck)]
  }

  function PutMatters(rows: map<string, MatterRow>, revisions: seq<Revision>, snaps: seq<Snapshot>,
      ms: seq<Matter>): map<string, MatterRow>
    decreases |ms|
  {
    if ms == [] then rows
    else PutMatter(PutMatters(rows, revisions, snaps, ms[..|ms| - 1]), revisions, snaps, ms[|ms| - 1])
  }

  function Apply(s: Store, jobs: Jobs.Table, job: Option<Jobs.Job>, snaps: seq<Snapshot>, os: seq<Observation>,
      ms: seq<Matter>)
    : (Store, Applying)
  {
    if (job.Some? && !Jobs.Owns(jobs, job.value)) || !CurrentSnapshots(s, snaps) then (s, Stale)
    else
      var verdict := CheckItems(s, snaps, ObservationItems(os) + MatterItems(ms));
      if verdict != Applied then (s, verdict)
      else
        var s1 := MarkProcessed(s, snaps);
        (s1.(observations := PutObservations(s1.observations, os),
             matters := PutMatters(s1.matters, s1.revisions, snaps, ms)), Applied)
  }

  // ---- Retention -----------------------------------------------------------

  /** The threads with text that is now too old to keep. */
  function Ageing(revisions: seq<Revision>, now: int): set<Place> {
    set i | 0 <= i < |revisions| && revisions[i].captured < now - 90 * DAY && revisions[i].excerpt != "" ::
      revisions[i].place
  }

  function AgedRevision(r: Revision, now: int): Revision {
    r.(text := if r.captured < now - 30 * DAY then "" else r.text,
       excerpt := if r.captured < now - 90 * DAY then "" else r.excerpt)
  }

  function AgedRevisions(revisions: seq<Revision>, now: int): (r: seq<Revision>)
    ensures |r| == |revisions|
  {
    seq(|revisions|, i requires 0 <= i < |revisions| => AgedRevision(revisions[i], now))
  }

  predicate CitesExpired(evidence: seq<nat>, revisions: seq<Revision>) {
    exists r :: r in evidence && Expired(revisions, r)
  }

  function ErasedObservation(row: ObservationRow, revisions: seq<Revision>): ObservationRow {
    if CitesExpired(row.evidence, revisions) then row.(text := "", valid := false) else row
  }

  function ErasedMatter(row: MatterRow, revisions: seq<Revision>): MatterRow {
    if CitesExpired(row.body.evidence, revisions) then row.(body := row.body.(detail := ""), valid := false) else row
  }

  function ErasedDelivery(d: Delivery, revisions: seq<Revision>, now: int): Delivery {
    if d.created < now - 90 * DAY || CitesExpired(d.evidence, revisions)
    then d.(text := "", state := if d.state == Pending then Cancelled else d.state) else d
  }

  /** The erasures of one retention pass, after the threads were invalidated. */
  function Erase(s: Store, now: int): Store {
    var revisions := AgedRevisions(s.revisions, now);
    s.(revisions := revisions,
       events := map e | e in s.events && s.events[e] >= now - 30 * DAY :: s.events[e],
       observations := map id | id in s.observations :: ErasedObservation(s.observations[id], revisions),
       matters := map id | id in s.matters :: ErasedMatter(s.matters[id], revisions),
       deliveries := map id | id in s.deliveries :: ErasedDelivery(s.deliveries[id], revisions, now))
  }

  /** One invalidation per thread, so none at all when no thread is ageing. */
  function InvalidateThreads(s: Store, places: set<Place>): Store {
    if places == {} then s else Invalidate(s, Threads(places))
  }

  function Expire(s: Store, now: int): Store {
    Erase(InvalidateThreads(s, Ageing(s.revisions, now)), now)
  }

  // ---- Feedback ------------------------------------------------------------

  /** The four buttons of a delivered message; any other action is only noted. */
  datatype Action = Handled | NotUseful | StopFollowing | Later(at: int) | Other

  function JudgedBody(body: Matter, action: Action): Matter {
    match action
    case Handled => body.(state := Resolved)
    case NotUseful => body.(state := Dismissed)
    case StopFollowing => body.(state := Dismissed)
    case Later(at) => body.(state := Snoozed, nextCheck := at)
    case Other => body
  }

  function Judged(row: MatterRow, action: Action): MatterRow {
    var body := JudgedBody(row.body.(nextCheck := row.nextCheck), action);
    row.(body := body, nextCheck := body.nextCheck)
  }

  function WithoutMatter(rows: map<string, Delivery>, id: string): map<string, Delivery> {
    map d | d in rows ::
      if rows[d].state == Pending && id in rows[d].matters then rows[d].(state := Cancelled) else rows[d]
  }

  function Feedback(s: Store, id: string, action: Action): (s': Store)
    ensures s' == s.(matters := s'.matters, deliveries := s'.deliveries, settings := s'.settings)
    ensures s'.deliveries == s.deliveries || s'.deliveries == WithoutMatter(s.deliveries, id)
  {
    if id !in s.matters then s
    else
      var row := Judged(s.matters[id], action);
      s.(matters := s.matters[id := row], deliveries := WithoutMatter(s.deliveries, id),
         settings := if action.StopFollowing?
                     then s.settings.(unfollowed := s.settings.unfollowed + {row.body.place}) else s.settings)
  }

  // ---- Deliveries ----------------------------------------------------------

  /** `cardCurrent` answers whether the proposal a delivery carries is current, unchanged and not yet handed off. */
  predicate Enqueueable(s: Store, d: Delivery, cardCurrent: bool) {
    && (d.state == Pending ==> EvidenceCurrent(s, d.evidence))
    && (d.matters != [] || d.proposal.Some?)
    && (d.proposal.Some? ==> cardCurrent)
    && (forall m :: m in d.matters ==> m in s.matters && s.matters[m].valid)
    && (forall m :: m in d.matters ==> s.matters[m].body.place !in s.settings.unfollowed)
  }

  /** A cancelled card may be queued again only if it never reserved a slot or received a timestamp. */
  predicate Retryable(stored: Delivery, d: Delivery) {
    && stored.state == Cancelled && d.state == Pending
    && stored.ts.None? && stored.slot.None?
    && d.proposal.Some? && stored.proposal == d.proposal
  }

  function Enqueue(s: Store, id: string, d: Delivery, cardCurrent: bool): (r: (Store, bool))
    ensures r.0 == s.(deliveries := r.0.deliveries)
  {
    if !Enqueueable(s, d, cardCurrent) then (s, false)
    else if id !in s.deliveries then (s.(deliveries := s.deliveries[id := d.(ts := None, slot := None)]), true)
    else if Retryable(s.deliveries[id], d) then
      (s.(deliveries := s.deliveries[id :=
        s.deliveries[id].(text := d.text, matters := d.matters, evidence := d.evidence,
                                                              created := d.created, state := Pending)]), true)
    else (s, false)
  }

  /** Sent, being sent, or perhaps sent. */
  predicate Committed(state: DeliveryState) {
    state.Sending? || state.Uncertain? || state.Sent?
  }

  predicate Occupies(d: Delivery, day: int, digest: bool) {
    d.slot == Some(day) && d.digest == digest && Committed(d.state)
  }

  function Occupied(s: Store, day: int, digest: bool): set<string> {
    set id | id in s.deliveries && Occupies(s.deliveries[id], day, digest)
  }

  function SlotCap(digest: bool): nat {
    if digest then 1 else 2
  }

  predicate Controlled(settings: Settings) {
    !settings.deliveryEnabled || settings.muted || settings.paused || settings.stopped
  }

  predicate Admissible(s: Store, d: Delivery, today: int, cardCurrent: bool) {
    && d.state == Pending
    && EvidenceCurrent(s, d.evidence)
    && (d.proposal.Some? ==> cardCurrent)
    && !Controlled(s.settings)
    && (forall m :: m in d.matters ==>
          m in s.matters && s.matters[m].valid && NotBarred(s, s.matters[m].place.channel)
            && s.matters[m].body.state == Open)
    && |Occupied(s, today, d.digest)| < SlotCap(d.digest)
  }

  function Admit(s: Store, id: string, today: int, cardCurrent: bool): (Store, bool) {
    if id in s.deliveries && Admissible(s, s.deliveries[id], today, cardCurrent)
    then (s.(deliveries := s.deliveries[id := s.deliveries[id].(state := Sending, slot := Some(today))]), true)
    else (s, false)
  }

  function Unsettled(rows: map<string, Delivery>): map<string, Delivery> {
    map d | d in rows :: if rows[d].state == Sending then rows[d].(state := Uncertain) else rows[d]
  }

  /** A new runner cannot know whether the one before it managed to send. */
  function AcquireRunner(s: Store, owner: string, now: int): (r: (Store, bool))
    ensures r.0 == s.(deliveries := r.0.deliveries, runner := r.0.runner)
    ensures r.0.deliveries == s.deliveries || r.0.deliveries == Unsettled(s.deliveries)
  {
    if s.runner.Some? && s.runner.value.owner != owner && s.runner.value.until > now then (s, false)
    else
      var takeover := !(s.runner.Some? && s.runner.value.owner == owner);
      (s.(deliveries := if takeover then Unsettled(s.deliveries) else s.deliveries,
          runner := Some(Runner(owner, now + 600_000))), true)
  }

  function ReleaseRunner(s: Store, owner: string): (s': Store)
    ensures s' == s.(runner := s'.runner)
  {
    if s.runner.Some? && s.runner.value.owner == owner then s.(runner := None) else s
  }

  function CancelDelivery(s: Store, id: string): (s': Store)
    ensures s' == s.(deliveries := s'.deliveries)
  {
    if id in s.deliveries && s.deliveries[id].state == Pending
    then s.(deliveries := s.deliveries[id := s.deliveries[id].(state := Cancelled)]) else s
  }

  function CancelAll(s: Store): (s': Store)
    ensures s' == s.(deliveries := s'.deliveries)
  {
    s.(deliveries := map d | d in s.deliveries ::
      if s.deliveries[d].state == Pending then s.deliveries[d].(state := Cancelled) else s.deliveries[d])
  }

  /** The outcome of a send, written without looking at the state it replaces. */
  function FinishDelivery(s: Store, id: string, sent: bool, ts: Option<string>): (s': Store)
    ensures s' == s.(deliveries := s'.deliveries)
  {
    if id in s.deliveries
    then s.(deliveries := s.deliveries[id := s.deliveries[id].(state := if sent then Sent else Uncertain, ts := ts)])
    else s
  }

  /** A send that threw: the timestamp is left as it was. */
  function UncertainDelivery(s: Store, id: string): (s': Store)
    ensures s' == s.(deliveries := s'.deliveries)
  {
    if id in s.deliveries then s.(deliveries := s.deliveries[id := s.deliveries[id].(state := Uncertain)]) else s
  }
}
