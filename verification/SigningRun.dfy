/** The signing protocol as a state machine over its transactions.

    A request that presents a token is a task: it resolves the token, reads the envelope's row,
    reads the person's row, and only then acts, each in a transaction of its own, so anything
    can happen in between. `Step` is one such transaction or one tick of the clock; `Run` is any
    sequence of them. A step whose moment has not come changes nothing. */
module SigningRun {
  import opened Wrappers
  import opened Envelope
  import FieldRules
  import FieldValues

  /** What a request wants once its token has let it in. `png` is whether the submitted image
      decodes. */
  datatype Intent = ToView | ToConsent | ToSubmit(png: bool, client: FieldValues.Values)

  /** How far a task has come, with what it has captured on the way. */
  datatype Progress =
    | Resolved
    | RequestRead
    | Loaded(status: Status, consentAt: Option<int>)
    | Ready(sig: Signature)
    | Claimed(now: int)

  datatype Task = Task(intent: Intent, hash: TokenHash, who: nat, at: Progress)

  /** A claim that won. */
  datatype Claim = Claim(who: nat, hash: TokenHash, now: int)

  /** `owner` remembers for every token ever minted whose it was; `due` and `expiryDue` what a
      sweep's query has ever found, and may still act on; `claims` is every claim that won;
      `lost` is whether a process died between winning a claim and advancing. */
  datatype State = State(
    env: Envelope, clock: int, owner: map<TokenHash, nat>, tasks: map<nat, Task>,
    due: set<nat>, expiryDue: bool, images: set<ObjectKey>,
    claims: seq<Claim>, advances: nat, lost: bool)

  datatype Action =
    | Tick(to: int)
    | Present(id: nat, intent: Intent, hash: TokenHash)
    | ReadRequest(id: nat)
    | ReadPerson(id: nat)
    | Prepare(id: nat, image: ObjectKey)
    | MakeClaim(id: nat)
    | MakeAdvance(id: nat, links: seq<TokenHash>)
    | WriteView(id: nat, at: int)
    | WriteConsent(id: nat, at: int)
    | Crash(id: nat)
    | SenderVoids
    | SenderResends(who: nat, minted: TokenHash)
    | FindExpired
    | SweepExpired
    | FindDue(who: nat)
    | SweepReminder(who: nat, minted: TokenHash)

  // ----- starting point

  predicate AreFresh(owner: map<TokenHash, nat>, minted: seq<TokenHash>) {
    && (forall i :: 0 <= i < |minted| ==> minted[i] !in owner)
    && (forall i, j :: 0 <= i < j < |minted| ==> minted[i] != minted[j])
  }

  function OwnersOf(minted: seq<TokenHash>): (owner: map<TokenHash, nat>)
    requires AreFresh(map[], minted)
    ensures forall h :: h in owner <==> h in minted
    ensures forall i :: 0 <= i < |minted| ==> owner[minted[i]] == i
  {
    map i: nat | i < |minted| :: minted[i] := i
  }

  /** A send the API accepts. `minted[i]` is the token minted for person `i` should they be
      invited at once. */
  predicate IsAccepted(
    input: SendInput, fields: seq<FieldRules.Field>, now: int, ttl: int, minted: seq<TokenHash>)
  {
    && IsValidInput(input) && |minted| == |input.people| && AreFresh(map[], minted)
    && NewEnvelope(input, fields, now, ttl, minted).Ok?
  }

  /** The state right after a send. */
  function Start(input: SendInput, fields: seq<FieldRules.Field>, now: int, ttl: int, minted: seq<TokenHash>): State
    requires IsAccepted(input, fields, now, ttl, minted)
  {
    State(NewEnvelope(input, fields, now, ttl, minted).value, now, OwnersOf(minted),
          map[], {}, false, {}, [], 0, false)
  }

  ghost predicate IsStart(s: State) {
    exists input, fields, now, ttl, minted ::
      IsAccepted(input, fields, now, ttl, minted) && s == Start(input, fields, now, ttl, minted)
  }

  // ----- the tasks

  function Drop(s: State, id: nat): State {
    s.(tasks := s.tasks - {id})
  }

  function MoveTo(s: State, id: nat, at: Progress): State
    requires id in s.tasks
  {
    s.(tasks := s.tasks[id := s.tasks[id].(at := at)])
  }

  function DoPresent(s: State, id: nat, intent: Intent, hash: TokenHash): State {
    var who := HolderOf(s.env.people, hash);
    if id in s.tasks || who.None? then s
    else s.(tasks := s.tasks[id := Task(intent, hash, who.value, Resolved)])
  }

  /** The first half of `loadForToken`: the envelope's own row. */
  function DoReadRequest(s: State, id: nat): State {
    if id !in s.tasks || s.tasks[id].at != Resolved then s
    else if s.env.request.expiresAt <= s.clock || s.env.request.status == IsVoided then Drop(s, id)
    else MoveTo(s, id, RequestRead)
  }

  /** The second half of `loadForToken`: the person's row carries the authoritative hash. */
  function DoReadPerson(s: State, id: nat): State {
    if id !in s.tasks || s.tasks[id].at != RequestRead || s.tasks[id].who >= |s.env.people| then s
    else
      var r := s.env.people[s.tasks[id].who];
      if r.hash != Some(s.tasks[id].hash) || !IsOpen(r) then Drop(s, id)
      else MoveTo(s, id, Loaded(r.status, r.consentAt))
  }

  /** `submit` up to its claim: consent, image and form are checked, the moment of signing is
      read off the clock, and the image is stored. */
  function DoPrepare(s: State, id: nat, image: ObjectKey): State {
    if id !in s.tasks || !s.tasks[id].intent.ToSubmit? || !s.tasks[id].at.Loaded?
       || s.tasks[id].who >= |s.env.people| || image in s.images then s
    else
      var t := s.tasks[id];
      if t.at.consentAt.None? || !t.intent.png then Drop(s, id)
      else
        var fields := FieldsOf(s.env.request, s.env.people[t.who].key);
        var form := FieldValues.Resolve(fields, t.intent.client, s.clock);
        if form.missingRequired != [] || form.invalid != [] then Drop(s, id)
        else MoveTo(s, id, Ready(Signature(t.hash, s.clock, image, form.values))).(images := s.images + {image})
  }

  function DoClaim(s: State, id: nat): State {
    if id !in s.tasks || !s.tasks[id].at.Ready? then s
    else
      var who, sig := s.tasks[id].who, s.tasks[id].at.sig;
      if !CanClaim(s.env, who, sig.hash) then Drop(s, id)
      else MoveTo(s, id, Claimed(sig.now)).(
             env := ClaimRow(s.env, who, sig), claims := s.claims + [Claim(who, sig.hash, sig.now)])
  }

  function DoAdvance(s: State, id: nat, minted: seq<TokenHash>): State {
    if id !in s.tasks || !s.tasks[id].at.Claimed? || |minted| != |s.env.people| || !AreFresh(s.owner, minted) then s
    else Drop(s, id).(
           env := Advanced(s.env, s.tasks[id].at.now, minted),
           owner := s.owner + OwnersOf(minted), advances := s.advances + 1)
  }

  function DoView(s: State, id: nat, at: int): State {
    if id !in s.tasks || !s.tasks[id].intent.ToView? || !s.tasks[id].at.Loaded?
       || s.tasks[id].who >= |s.env.people| || s.clock < at then s
    else if s.tasks[id].at.status == Sent then Drop(s, id).(env := RecordView(s.env, s.tasks[id].who, at))
    else Drop(s, id)
  }

  function DoConsent(s: State, id: nat, at: int): State {
    if id !in s.tasks || !s.tasks[id].intent.ToConsent? || !s.tasks[id].at.Loaded?
       || s.tasks[id].who >= |s.env.people| || s.clock < at then s
    else if s.tasks[id].at.consentAt.None? then Drop(s, id).(env := RecordConsent(s.env, s.tasks[id].who, at))
    else Drop(s, id)
  }

  /** A process dies. After a won claim that loses the advance. */
  function DoCrash(s: State, id: nat): State {
    if id !in s.tasks then s else Drop(s, id).(lost := s.lost || s.tasks[id].at.Claimed?)
  }

  // ----- the sender and the sweeps

  function DoVoid(s: State): State {
    match Voided(s.env, s.clock)
    case Ok(e) => s.(env := e)
    case Err(_) => s
  }

  function DoResend(s: State, who: nat, minted: TokenHash): State {
    if minted in s.owner then s
    else match Resent(s.env, who, s.clock, minted)
      case Ok(e) => s.(env := e, owner := s.owner[minted := who])
      case Err(_) => s
  }

  function DoSweepExpired(s: State): State {
    if s.expiryDue then s.(env := Expired(s.env, s.clock)) else s
  }

  function DoSweepReminder(s: State, who: nat, minted: TokenHash): State {
    if who !in s.due || minted in s.owner then s
    else s.(env := Reminded(s.env, who, s.clock, minted), owner := s.owner[minted := who])
  }

  // ----- steps and runs

  function Step(s: State, a: Action): State {
    match a
    case Tick(to) => if s.clock <= to then s.(clock := to) else s
    case Present(id, intent, hash) => DoPresent(s, id, intent, hash)
    case ReadRequest(id) => DoReadRequest(s, id)
    case ReadPerson(id) => DoReadPerson(s, id)
    case Prepare(id, image) => DoPrepare(s, id, image)
    case MakeClaim(id) => DoClaim(s, id)
    case MakeAdvance(id, links) => DoAdvance(s, id, links)
    case WriteView(id, at) => DoView(s, id, at)
    case WriteConsent(id, at) => DoConsent(s, id, at)
    case Crash(id) => DoCrash(s, id)
    case SenderVoids => DoVoid(s)
    case SenderResends(who, minted) => DoResend(s, who, minted)
    case FindExpired => s.(expiryDue := s.expiryDue || IsPastExpiry(s.env, s.clock))
    case SweepExpired => DoSweepExpired(s)
    case FindDue(who) => if MayRemind(s.env, who, s.clock) then s.(due := s.due + {who}) else s
    case SweepReminder(who, minted) => DoSweepReminder(s, who, minted)
  }

  function Run(s: State, actions: seq<Action>): State
    decreases actions
  {
    if actions == [] then s else Run(Step(s, actions[0]), actions[1..])
  }

  lemma {:induction false} RunConcat(s: State, a: seq<Action>, b: seq<Action>)
    ensures Run(s, a + b) == Run(Run(s, a), b)
    decreases a
  {
    if a == [] {
      assert a + b == b;
    } else {
      assert (a + b)[1..] == a[1..] + b;
      RunConcat(Step(s, a[0]), a[1..], b);
    }
  }
}
