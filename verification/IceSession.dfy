/** The ICE interposition of src/ice_shim.c: gathering deadline, ICE restart
  (section 9 of RFC 8445), held candidate re-offers and re-assertion of the
  nominated pair.

  baresip and the ice module are the environment: they report gathering, report
  nominated pairs, apply SDP and let timers fire.  Handing an offer to baresip
  may re-enter the update handler before it returns; that nested SDP application
  is a parameter of every step that hands one over. */
module IceSession {
  import opened History

  type Endpoint = nat
  type Ufrag = nat

  const MAX_REMOTE_RESTARTS: nat := 2
  const RESTART_DEADLINE_MS: nat := 3000
  const REOFFER_SECURE_DEADLINE_MS: nat := 12000
  const REOFFER_POLL_MS: nat := 50

  /** One stream.  `stream` is where baresip sends its media, `sdpRaddr` and
    `sdpUfrag` what the peer's SDP says, `sdpLaddr` what ours says. */
  datatype Media = Media(
    connh: bool,
    stream: Option<Endpoint>,
    sdpRaddr: Option<Endpoint>,
    sdpUfrag: Option<Ufrag>,
    sdpLaddr: Option<Endpoint>,
    signalled: Option<Endpoint>,
    selSet: bool,
    selected: Option<Endpoint>,
    rsig: Option<Endpoint>,
    rufrag: Option<Ufrag>,
    held: bool)

  datatype Cause = Gathered | DeadlineHit | CandidateReoffer

  datatype IceEvent =
    | Offered(cause: Cause)
    | FailureReported
    | ReofferRequested
    | Restarted(forPeer: bool)
    | Updated(nested: bool, schedules: bool)

  datatype Sess = Sess(
    released: bool,
    restarting: bool,
    reoffered: bool,
    awaitAnswer: bool,
    primed: bool,
    rrestarts: nat,
    gather: Timer,
    reoffer: Timer,
    reofferDue: nat,
    rrestart: Timer,
    medias: seq<Media>,
    log: Log<IceEvent>)

  function Tell(s: Sess, e: IceEvent): Sess {
    s.(log := Then(s.log, e))
  }

  /** The peer's description of one stream in an SDP exchange. */
  datatype PeerMedia = PeerMedia(raddr: Option<Endpoint>, ufrag: Option<Ufrag>)

  /** An SDP exchange as the update handler sees it: the peer's streams and
    whether the media encryption is still handshaking. */
  datatype Sdp = Sdp(peer: nat -> PeerMedia, awaitingSecure: bool)

  /** ice_sessh: armed unless the deadline is configured off. */
  function Create(timeoutMs: nat): Sess {
    Sess(false, false, false, false, false, 0, if timeoutMs > 0 then Armed(timeoutMs) else Stopped, Stopped, 0, Stopped,
         [], Empty)
  }

  // ---------------------------------------------------------------------
  // Applying SDP
  // ---------------------------------------------------------------------

  /** stream_update: every stream is pointed at the address the peer signalled. */
  function SignalMedia(m: Media, p: PeerMedia): Media {
    m.(stream := p.raddr, sdpRaddr := p.raddr, sdpUfrag := p.ufrag)
  }

  function SignalAll(ms: seq<Media>, peer: nat -> PeerMedia): (r: seq<Media>)
    ensures |r| == |ms|
  {
    seq(|ms|, i requires 0 <= i < |ms| => SignalMedia(ms[i], peer(i)))
  }

  predicate PeerChanged(m: Media) {
    m.sdpUfrag.Some? && m.rufrag.Some? && m.rufrag != m.sdpUfrag
  }

  predicate AnyPeerChanged(ms: seq<Media>) {
    exists i :: 0 <= i < |ms| && PeerChanged(ms[i])
  }

  function SyncMedia(m: Media): Media {
    if m.sdpUfrag.Some? then m.(rufrag := m.sdpUfrag) else m
  }

  function SyncAll(ms: seq<Media>): (r: seq<Media>)
    ensures |r| == |ms|
  {
    seq(|ms|, i requires 0 <= i < |ms| => SyncMedia(ms[i]))
  }

  /** reassert_selected for one stream. */
  function ReassertMedia(m: Media): Media {
    if !m.selSet || !m.connh then m
    else if m.held then m.(held := false, stream := m.selected)
    else if m.sdpRaddr.None? || m.sdpRaddr != m.rsig then m.(selSet := false)
    else m.(stream := m.selected)
  }

  function ReassertAll(ms: seq<Media>): (r: seq<Media>)
    ensures |r| == |ms|
  {
    seq(|ms|, i requires 0 <= i < |ms| => ReassertMedia(ms[i]))
  }

  function ForgetMedia(m: Media): Media {
    m.(selSet := false)
  }

  function ForgetAll(ms: seq<Media>): (r: seq<Media>)
    ensures |r| == |ms|
  {
    seq(|ms|, i requires 0 <= i < |ms| => ForgetMedia(ms[i]))
  }

  /** Whether an update answers the peer's ICE restart with one of ours. */
  predicate AnswersPeerRestart(s: Sess, sdp: Sdp) {
    && !s.awaitAnswer
    && AnyPeerChanged(s.medias) && sdp.awaitingSecure
    && !s.restarting && !s.rrestart.Armed?
    && s.rrestarts < MAX_REMOTE_RESTARTS
  }

  /** ice_updateh, once the streams have been reset. */
  function Update(s: Sess, nested: bool, sdp: Sdp): Sess {
    if nested && s.awaitAnswer then
      Tell(s.(medias := ReassertAll(s.medias)), Updated(true, false))
    else
      Exchanged(s, nested, sdp)
  }

  /** A completed exchange, the peer's credentials noted. */
  function Exchanged(s: Sess, nested: bool, sdp: Sdp): Sess {
    var changed := AnyPeerChanged(s.medias);
    var schedules := AnswersPeerRestart(s, sdp);
    var t := Tell(s.(medias := SyncAll(s.medias), awaitAnswer := false), Updated(nested, schedules));
    if changed && (s.awaitAnswer || sdp.awaitingSecure) then
      var t := t.(medias := ForgetAll(t.medias));
      if schedules then t.(rrestarts := t.rrestarts + 1, rrestart := Armed(0)) else t
    else
      t.(medias := ReassertAll(t.medias))
  }

  function ApplySdp(s: Sess, nested: bool, sdp: Sdp): Sess {
    Update(s.(medias := SignalAll(s.medias, sdp.peer)), nested, sdp)
  }

  /** estab_release on success: baresip offers, possibly re-entering updateh. */
  function HandOver(s: Sess, cause: Cause, nested: Option<Sdp>): Sess {
    var s := Tell(s, Offered(cause));
    if nested.Some? then ApplySdp(s, true, nested.value) else s
  }

  // ---------------------------------------------------------------------
  // Gathering
  // ---------------------------------------------------------------------

  function RebaseMedia(m: Media): Media {
    if m.sdpLaddr.Some? then m.(signalled := m.sdpLaddr) else m
  }

  function RebaseAll(ms: seq<Media>): (r: seq<Media>)
    ensures |r| == |ms|
  {
    seq(|ms|, i requires 0 <= i < |ms| => RebaseMedia(ms[i]))
  }

  /** prime_conncheck: run the checks while the phone rings. */
  function Prime(s: Sess, incoming: bool): Sess {
    if s.primed || !incoming || !(exists i :: 0 <= i < |s.medias| && s.medias[i].sdpUfrag.Some?) then s
    else s.(primed := true, medias := SyncAll(s.medias))
  }

  /** ice_estab: the ice module reports, with or without a failure. */
  function GatherReport(s: Sess, failed: bool, nested: Option<Sdp>, incoming: bool): Sess {
    var t := s.(gather := Stopped, restarting := false);
    if s.released && failed then t
    else if failed && !s.restarting then Tell(t.(released := true), FailureReported)
    else Prime(HandOver(t.(released := true, medias := RebaseAll(t.medias)), Gathered, nested), incoming)
  }

  function GatherDeadline(s: Sess, nested: Option<Sdp>): Sess {
    var t := s.(gather := Stopped);
    if s.released then t
    else HandOver(t.(restarting := false, released := true), DeadlineHit, nested)
  }

  // ---------------------------------------------------------------------
  // Nominated pairs and candidate re-offers
  // ---------------------------------------------------------------------

  /** The first part of ice_connected, on the stream itself. */
  function ConnectMedia(m: Media, raddr: Option<Endpoint>, incoming: bool): Media {
    var m := if raddr.Some? then m.(selected := raddr, rsig := m.sdpRaddr, selSet := true) else m;
    if incoming then (if m.selSet then m.(held := true) else m)
    else if m.connh && raddr.Some? then m.(stream := raddr)
    else m
  }

  predicate NeverSignalled(m: Media) {
    m.sdpLaddr.Some? && m.signalled.Some? && m.sdpLaddr != m.signalled
  }

  function Connected(
    s: Sess, i: nat, raddr: Option<Endpoint>, incoming: bool, awaitingSecure: bool, now: nat, nested: Option<Sdp>): Sess
    requires i < |s.medias|
  {
    var t := s.(medias := s.medias[i := ConnectMedia(s.medias[i], raddr, incoming)]);
    if incoming || !NeverSignalled(t.medias[i]) || s.reoffered then t
    else Requested(t, awaitingSecure, now, nested)
  }

  /** The one candidate re-offer: now, or once the media is secured. */
  function Requested(s: Sess, awaitingSecure: bool, now: nat, nested: Option<Sdp>): Sess {
    var t := Tell(s.(reoffered := true), ReofferRequested);
    if awaitingSecure then
      t.(reofferDue := now + REOFFER_SECURE_DEADLINE_MS, reoffer := Armed(REOFFER_POLL_MS))
    else
      HandOver(t.(reoffer := Stopped), CandidateReoffer, nested)
  }

  function ReofferPoll(s: Sess, awaitingSecure: bool, now: nat, nested: Option<Sdp>): Sess {
    if awaitingSecure then s.(reoffer := if now < s.reofferDue then Armed(REOFFER_POLL_MS) else Stopped)
    else HandOver(s.(reoffer := Stopped), CandidateReoffer, nested)
  }

  // ---------------------------------------------------------------------
  // Restart
  // ---------------------------------------------------------------------

  function RestartMedia(m: Media, laddr: Option<Endpoint>): Media {
    m.(sdpLaddr := if laddr.Some? then laddr else m.sdpLaddr, selSet := false, held := false)
  }

  function RestartAll(ms: seq<Media>, laddr: Option<Endpoint>): (r: seq<Media>)
    ensures |r| == |ms|
  {
    seq(|ms|, i requires 0 <= i < |ms| => RestartMedia(ms[i], laddr))
  }

  datatype RestartAnswer = Ok | Already | NoEntry | AllocError

  /** vox_ice_restart. */
  function Restart(s: Sess, timeoutMs: nat, laddr: Option<Endpoint>, allocOk: bool, forPeer: bool): (Sess, RestartAnswer) {
    if s.medias == [] then (s, NoEntry)
    else if s.restarting then (s, Already)
    else if !allocOk then (s, AllocError)
    else
      (Tell(s.(released := false, restarting := true, reoffered := false, awaitAnswer := true,
               medias := RestartAll(s.medias, laddr),
               gather := Armed(if timeoutMs > 0 then timeoutMs else RESTART_DEADLINE_MS)),
            Restarted(forPeer)),
       Ok)
  }

  // ---------------------------------------------------------------------
  // Runs
  // ---------------------------------------------------------------------

  datatype IceInput =
    | MediaAdded(media: Media)
    | LaddrWritten(i: nat, laddr: Option<Endpoint>)
    | Gather(failed: bool, nested: Option<Sdp>, incoming: bool)
    | GatherTimer(nested: Option<Sdp>)
    | PairNominated(i: nat, raddr: Option<Endpoint>, incoming: bool, awaitingSecure: bool, now: nat, nested: Option<Sdp>)
    | ReofferTimer(awaitingSecure: bool, now: nat, nested: Option<Sdp>)
    | RestartTimer(allocOk: bool)
    | HandoverRestart(laddr: Option<Endpoint>, allocOk: bool)
    | SdpExchange(sdp: Sdp)

  /** A stream is as ice_mediah made it when it joins; a pair is nominated only
    once an offer or answer has been handed over, since the connectivity checks
    need both candidate sets. */
  predicate Enabled(s: Sess, input: IceInput) {
    match input
    case MediaAdded(m) => !m.selSet && !m.held && m.rufrag.None?
    case LaddrWritten(i, _) => i < |s.medias|
    case GatherTimer(_) => s.gather.Armed?
    case PairNominated(i, _, _, _, _, _) => i < |s.medias| && AnyOffer(s.log)
    case ReofferTimer(_, _, _) => s.reoffer.Armed?
    case RestartTimer(_) => s.rrestart.Armed?
    case _ => true
  }

  predicate AnyOffer(log: Log<IceEvent>) {
    log.Then? && (log.last.Offered? || log.last.FailureReported? || AnyOffer(log.past))
  }

  function Step(s: Sess, timeoutMs: nat, input: IceInput): Sess
    requires Enabled(s, input)
  {
    match input
    case MediaAdded(m) => s.(medias := s.medias + [m])
    case LaddrWritten(i, laddr) => s.(medias := s.medias[i := s.medias[i].(sdpLaddr := laddr)])
    case Gather(failed, nested, incoming) => GatherReport(s, failed, nested, incoming)
    case GatherTimer(nested) => GatherDeadline(s, nested)
    case PairNominated(i, raddr, incoming, awaiting, now, nested) =>
      Connected(s, i, raddr, incoming, awaiting, now, nested)
    case ReofferTimer(awaiting, now, nested) => ReofferPoll(s, awaiting, now, nested)
    case RestartTimer(ok) => Restart(s.(rrestart := Stopped), timeoutMs, None, ok, true).0
    case HandoverRestart(laddr, ok) => Restart(s, timeoutMs, laddr, ok, false).0
    case SdpExchange(sdp) => ApplySdp(s, false, sdp)
  }

  /** Inputs that are not enabled change nothing. */
  function Run(timeoutMs: nat, inputs: Log<IceInput>): Sess {
    match inputs
    case Empty => Create(timeoutMs)
    case Then(past, i) =>
      var s := Run(timeoutMs, past);
      if Enabled(s, i) then Step(s, timeoutMs, i) else s
  }
}
