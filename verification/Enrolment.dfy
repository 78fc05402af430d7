/** Bootstrap and renewal runs on one Secret (`internal/auth/flows.go` over `secret_store.go`): any number
    of processes, interleaved at every request, any of which may crash or lose a request or a reply. */
module Enrolment {
  import opened Text
  import opened SecretStore

  type Id = nat

  /** Where a run stands.  `csr` is the request generated by the run; `base` is what the Get inside
      `Write` returned. */
  datatype Pc =
    | Checking                                             // Persister.Exists
    | Reading                                              // Persister.Read, the validity check and the key pair
    | Calling(csr: nat)                                    // the brain
    | Fetching(csr: nat, cert: Blob, ca: Blob)             // the Get of Persister.Write
    | Writing(csr: nat, cert: Blob, ca: Blob, base: Option<Secret>) // its Update or Create
    | Ended(ok: bool)

  datatype Kind = Bootstrap | Renew

  datatype Proc = Proc(kind: Kind, pc: Pc)

  /** `contacted` are the runs that have sent something to the brain. */
  datatype State = State(server: Option<Secret>, procs: map<Id, Proc>, nextCsr: nat, contacted: set<Id>)

  /** What the outside decides in a step: how the request goes, whether the current certificate still has
      more validity than the threshold, whether local preparation works, and the certificate and CA that the
      brain answers with, if it does. */
  datatype World = World(net: Net, fresh_: bool, prepared: bool, reply: Option<(Blob, Blob)>)

  datatype Action = Start(id: Id, kind: Kind) | Step(id: Id, world: World)

  predicate Enabled(s: State, a: Action) {
    match a
    case Start(id, _) => id !in s.procs
    case Step(id, _) => id in s.procs && !s.procs[id].pc.Ended?
  }

  /** `certRemaining` reads the first PEM block and nothing else. */
  predicate Parses(cert: Blob) { (cert.CertOf? || cert.Junk?) && cert.first }

  /** `RenewFlow.Run` after its Read: skip while fresh; a certificate that does not parse is no reason to
      skip, but a pair that does not match ends the run; otherwise call the brain. */
  function AfterRead(cert: Blob, key: Blob, csr: nat, w: World): Pc {
    if Parses(cert) && w.fresh_ then Ended(true)
    else if !Matched(cert, key) then Ended(false)
    else if !w.prepared then Ended(false)
    else Calling(csr)
  }

  function NextPc(s: State, p: Proc, w: World): Pc
    requires !p.pc.Ended?
  {
    match p.pc
    case Checking =>
      if !w.net.Reaches? then Ended(false)
      else if p.kind.Bootstrap? then
        if Provisioned(s.server) then Ended(true) else if !w.prepared then Ended(false) else Calling(s.nextCsr)
      else if Provisioned(s.server) then Reading else Ended(false)
    case Reading =>
      if !w.net.Reaches? || s.server.None? then Ended(false)
      else AfterRead(At(s.server.value.data, Crt), At(s.server.value.data, Key), s.nextCsr, w)
    case Calling(csr) =>
      if !w.net.Reaches? || w.reply.None? || w.reply.value.0.Empty? then Ended(false)
      else Fetching(csr, w.reply.value.0, w.reply.value.1)
    case Fetching(csr, cert, ca) => if !w.net.Reaches? then Ended(false) else Writing(csr, cert, ca, s.server)
    case Writing(csr, cert, ca, base) => Ended(w.net.Reaches? && Accepts(s.server, base))
  }

  /** Does the step store something? */
  predicate Writes(s: State, pc: Pc, w: World) { pc.Writing? && !w.net.Fails? && Accepts(s.server, pc.base) }

  function Apply(s: State, a: Action): State
    requires Enabled(s, a)
  {
    match a
    case Start(id, kind) => s.(procs := s.procs[id := Proc(kind, Checking)])
    case Step(id, w) =>
      var p := s.procs[id];
      var next := NextPc(s, p, w);
      State(
        if Writes(s, p.pc, w) then Stored(s.server, p.pc.base, p.pc.cert, KeyOf(p.pc.csr), p.pc.ca) else s.server,
        s.procs[id := p.(pc := next)],
        if next.Calling? then s.nextCsr + 1 else s.nextCsr,
        if p.pc.Calling? then s.contacted + {id} else s.contacted)
  }

  predicate Feasible(s: State, acts: seq<Action>)
    decreases |acts|
  {
    acts == [] || (Enabled(s, acts[0]) && Feasible(Apply(s, acts[0]), acts[1..]))
  }

  function Exec(s: State, acts: seq<Action>): State
    requires Feasible(s, acts)
    decreases |acts|
  {
    if acts == [] then s else Exec(Apply(s, acts[0]), acts[1..])
  }

  // ---------------------------------------------------------------------
  // What every step keeps

  predicate InUse(csr: nat, first: nat, s: State) { first <= csr < s.nextCsr }

  /** Requests are numbered from `first` on; nothing empty is about to be stored, and what `Write` read is no
      newer than the server. */
  predicate PcInv(s: State, pc: Pc, first: nat) {
    match pc
    case Calling(csr) => InUse(csr, first, s)
    case Fetching(csr, cert, ca) => InUse(csr, first, s) && !cert.Empty?
    case Writing(csr, cert, ca, base) => InUse(csr, first, s) && !cert.Empty? && Later(base, s.server)
    case _ => true
  }

  ghost predicate Inv(s: State, first: nat) {
    first <= s.nextCsr && forall id :: id in s.procs ==> PcInv(s, s.procs[id].pc, first)
  }

  /** The keys generated from `first` on are not the one in the Secret. */
  predicate Fresh(server: Option<Secret>, first: nat) {
    server.Some? && At(server.value.data, Key).KeyOf? ==> At(server.value.data, Key).csr < first
  }

  predicate Initial(s: State) { s.procs == map[] && s.contacted == {} && Fresh(s.server, s.nextCsr) }

  lemma ApplyInv(s: State, a: Action, first: nat)
    requires Inv(s, first) && Enabled(s, a)
    ensures Inv(Apply(s, a), first) && Later(s.server, Apply(s, a).server)
    ensures !StoredCa(s.server).Empty? ==> !StoredCa(Apply(s, a).server).Empty?
    ensures Provisioned(s.server) ==> Provisioned(Apply(s, a).server)
  {
    var t := Apply(s, a);
    if a.Step? { assert PcInv(s, s.procs[a.id].pc, first); }
    forall id | id in t.procs ensures PcInv(t, t.procs[id].pc, first) {
      if id in s.procs { assert PcInv(s, s.procs[id].pc, first); }
    }
  }

  lemma {:induction false} ExecInv(s: State, acts: seq<Action>, first: nat)
    requires Inv(s, first) && Feasible(s, acts)
    ensures Inv(Exec(s, acts), first)
    ensures !StoredCa(s.server).Empty? ==> !StoredCa(Exec(s, acts).server).Empty?
    ensures Provisioned(s.server) ==> Provisioned(Exec(s, acts).server)
    decreases |acts|
  {
    if acts != [] {
      ApplyInv(s, acts[0], first);
      ExecInv(Apply(s, acts[0]), acts[1..], first);
    }
  }

  /** The certificate and key in the Secret belong together, or are those of `origin`. */
  predicate OnePair(server: Option<Secret>, origin: Option<Secret>) {
    server.Some? ==>
      || (origin.Some? && At(server.value.data, Crt) == At(origin.value.data, Crt) && At(server.value.data, Key) == At(origin.value.data, Key))
      || Matched(At(server.value.data, Crt), At(server.value.data, Key))
  }

  /** At every point of the run. */
  predicate AlwaysOnePair(s: State, acts: seq<Action>, origin: Option<Secret>)
    requires Feasible(s, acts)
    decreases |acts|
  {
    OnePair(s.server, origin) && (acts != [] ==> AlwaysOnePair(Apply(s, acts[0]), acts[1..], origin))
  }

  /** Whenever a reply of the brain is stored, it is a certificate for the request of that run. */
  predicate StoredRepliesFit(s: State, acts: seq<Action>)
    requires Feasible(s, acts)
    decreases |acts|
  {
    acts != [] ==>
      && (acts[0].Step? ==>
            var pc := s.procs[acts[0].id].pc;
            Writes(s, pc, acts[0].world) ==> Matched(pc.cert, KeyOf(pc.csr)))
      && StoredRepliesFit(Apply(s, acts[0]), acts[1..])
  }

  lemma {:induction false} OnePairIff(s: State, acts: seq<Action>, first: nat, origin: Option<Secret>)
    requires Inv(s, first) && Feasible(s, acts) && Fresh(origin, first) && OnePair(s.server, origin)
    ensures AlwaysOnePair(s, acts, origin) <==> StoredRepliesFit(s, acts)
    decreases |acts|
  {
    if acts != [] {
      var t := Apply(s, acts[0]);
      ApplyInv(s, acts[0], first);
      if acts[0].Step? { assert PcInv(s, s.procs[acts[0].id].pc, first); }
      if OnePair(t.server, origin) { OnePairIff(t, acts[1..], first, origin); }
    }
  }

  /** Under every interleaving of bootstrap and renew runs, with crashes and lost messages, and whatever the
      brain answers: the stored certificate and key belong together, or are the ones found at the start, at
      every point of the run, if and only if every reply that gets stored fits the request of its own run;
      no other mixture can arise.  And a CA that was once stored is never gone. */
  lemma SecretStaysWhole(s: State, acts: seq<Action>, more: seq<Action>)
    requires Initial(s) && Feasible(s, acts) && Feasible(Exec(s, acts), more)
    ensures AlwaysOnePair(s, acts, s.server) <==> StoredRepliesFit(s, acts)
    ensures !StoredCa(Exec(s, acts).server).Empty? ==> !StoredCa(Exec(Exec(s, acts), more).server).Empty?
  {
    OnePairIff(s, acts, s.nextCsr, s.server);
    ExecInv(s, acts, s.nextCsr);
    ExecInv(Exec(s, acts), more, s.nextCsr);
  }

  /** A run whose Get has been overtaken by another write cannot store anything any more. */
  lemma StaleWriterFails(s: State, acts: seq<Action>, id: Id, w: World, first: nat)
    requires Inv(s, first) && Feasible(s, acts)
    requires id in s.procs && s.procs[id].pc.Writing? && !Accepts(s.server, s.procs[id].pc.base)
    requires var t := Exec(s, acts); id in t.procs && t.procs[id] == s.procs[id]
    ensures var t := Exec(s, acts);
            Apply(t, Step(id, w)).server == t.server && Apply(t, Step(id, w)).procs[id].pc == Ended(false)
  {
    Overtaken(s, acts, s.procs[id].pc.base, first);
  }

  lemma {:induction false} Overtaken(s: State, acts: seq<Action>, base: Option<Secret>, first: nat)
    requires Inv(s, first) && Feasible(s, acts) && Later(base, s.server) && !Accepts(s.server, base)
    ensures !Accepts(Exec(s, acts).server, base)
    decreases |acts|
  {
    if acts != [] {
      ApplyInv(s, acts[0], first);
      Overtaken(Apply(s, acts[0]), acts[1..], base, first);
    }
  }

  // ---------------------------------------------------------------------
  // Bootstrap runs once

  predicate NeverCalls(p: Proc) { p.kind.Bootstrap? ==> p.pc.Checking? || p.pc.Ended? }

  /** Once a certificate is stored, a bootstrap run that starts later ends without a word to the brain. */
  lemma {:induction false} BootstrapIsIdempotent(s: State, acts: seq<Action>, id: Id, first: nat)
    requires Inv(s, first) && Feasible(s, acts) && Provisioned(s.server) && id !in s.contacted
    requires id in s.procs ==> NeverCalls(s.procs[id]) && s.procs[id].kind.Bootstrap?
    ensures var t := Exec(s, acts);
            id in t.procs && t.procs[id].kind.Bootstrap? ==> id !in t.contacted && NeverCalls(t.procs[id])
    decreases |acts|
  {
    if acts != [] {
      ApplyInv(s, acts[0], first);
      if acts[0] == Start(id, Renew) {
        KindStays(Apply(s, acts[0]), acts[1..], id);
      } else {
        BootstrapIsIdempotent(Apply(s, acts[0]), acts[1..], id, first);
      }
    }
  }

  lemma {:induction false} KindStays(s: State, acts: seq<Action>, id: Id)
    requires Feasible(s, acts) && id in s.procs
    ensures var t := Exec(s, acts); id in t.procs && t.procs[id].kind == s.procs[id].kind
    decreases |acts|
  {
    if acts != [] { KindStays(Apply(s, acts[0]), acts[1..], id); }
  }

  /** A successful write provisions the Secret, so the lemma above applies from then on. */
  lemma WriteProvisions(s: State, id: Id, w: World, first: nat)
    requires Inv(s, first) && Enabled(s, Step(id, w)) && s.procs[id].pc.Writing?
    requires Apply(s, Step(id, w)).procs[id].pc == Ended(true)
    ensures Provisioned(Apply(s, Step(id, w)).server)
  {
  }

  // ---------------------------------------------------------------------
  // Runs that do not write change nothing

  /** Only the last request of a run touches the Secret; everything before it leaves it alone. */
  lemma OnlyTheWriteWrites(s: State, a: Action)
    requires Enabled(s, a) && Apply(s, a).server != s.server
    ensures a.Step? && Writes(s, s.procs[a.id].pc, a.world)
    ensures Apply(s, a).procs[a.id].pc.Ended?
  {
  }

  /** A provisioned Secret whose certificate and key do not match. */
  predicate Broken(server: Option<Secret>) {
    Provisioned(server) && !Matched(At(server.value.data, Crt), At(server.value.data, Key))
  }

  predicate Harmless(p: Proc) { p.pc.Checking? || p.pc.Reading? || p.pc.Ended? }

  /** Such a Secret is never repaired: no bootstrap or renew run that starts on it, in any number and any
      interleaving, changes it or reaches the brain. */
  lemma {:induction false} BrokenSecretIsNeverRepaired(s: State, acts: seq<Action>)
    requires Feasible(s, acts) && Broken(s.server) && forall id :: id in s.procs ==> Harmless(s.procs[id])
    ensures Exec(s, acts).server == s.server && Exec(s, acts).contacted == s.contacted
    decreases |acts|
  {
    if acts != [] {
      var t := Apply(s, acts[0]);
      forall id | id in t.procs ensures Harmless(t.procs[id]) {
        if id in s.procs { assert Harmless(s.procs[id]); }
      }
      assert acts[0].Step? ==> Harmless(s.procs[acts[0].id]);
      BrokenSecretIsNeverRepaired(t, acts[1..]);
    }
  }

  // ---------------------------------------------------------------------
  // The two runs as they are written, for one process

  /** What one run meets outside: the requests of Exists and Read, the token file, key generation and
      client set-up, the brain's certificate and CA, and the requests of Write with the state they find. */
  datatype Inputs = Inputs(exists_: Net, read: Net, token: Option<string>, prepared: bool, fresh_: bool,
                           csr: nat, reply: Option<(Blob, Blob)>, get: Net, meanwhile: Option<Secret>, put: Net)

  predicate HasToken(i: Inputs) { i.token.Some? && TrimSpace(i.token.value) != "" }

  /** The brain's answer reaches the server's Secret, which nobody has changed since the Get. */
  predicate Lands(i: Inputs, server: Option<Secret>) {
    i.reply.Some? && !i.reply.value.0.Empty? && i.get.Reaches? && !i.put.Fails? && i.meanwhile == server
  }

  /** How a run that contacts the brain ends. */
  predicate EndsAfterContact(server: Option<Secret>, i: Inputs, ok: bool, after: Option<Secret>) {
    && (ok <==> Lands(i, server) && i.put.Reaches?)
    && after == if i.reply.None? || i.reply.value.0.Empty? then server
                else if Lands(i, server) then Stored(server, server, i.reply.value.0, KeyOf(i.csr), i.reply.value.1)
                else i.meanwhile
  }

  /** How a bootstrap run ends: it contacts the brain exactly when the store has no pair yet and everything it
      needs is there. */
  predicate BootstrapEnds(server: Option<Secret>, i: Inputs, ok: bool, contacted: bool, after: Option<Secret>) {
    && (contacted <==> i.exists_.Reaches? && !Provisioned(server) && HasToken(i) && i.prepared)
    && (!contacted ==> (ok <==> i.exists_.Reaches? && Provisioned(server)) && after == server)
    && (contacted ==> EndsAfterContact(server, i, ok, after))
  }

  /** How a renew run ends: it contacts the brain exactly when it can read a pair that matches and that it does
      not skip; `threshold` says whether RenewBefore is set. */
  predicate RenewEnds(server: Option<Secret>, threshold: bool, i: Inputs, ok: bool, contacted: bool, after: Option<Secret>) {
    var readable := i.exists_.Reaches? && Provisioned(server) && i.read.Reaches?;
    var skips := readable && threshold && i.fresh_ && Parses(At(server.value.data, Crt));
    && (contacted <==> readable && !skips && !Broken(server) && i.prepared)
    && (!contacted ==> (ok <==> skips) && after == server)
    && (contacted ==> EndsAfterContact(server, i, ok, after))
  }

  /** `BootstrapFlow.Run` */
  method RunBootstrap(store: Store, clusterID: string, brainURL: string, i: Inputs) returns (ok: bool, contacted: bool)
    requires Later(store.server, i.meanwhile)
    modifies store
    ensures clusterID == "" || brainURL == "" ==> !ok && !contacted && store.server == old(store.server)
    ensures clusterID != "" && brainURL != "" ==> BootstrapEnds(old(store.server), i, ok, contacted, store.server)
  {
    contacted := false;
    if clusterID == "" || brainURL == "" { return false, contacted; }
    var already := store.Exists(i.exists_);
    if already.None? { return false, contacted; }
    if already.value { return true, contacted; }
    if i.token.None? { return false, contacted; }
    var token := TrimSpace(i.token.value);
    if token == "" { return false, contacted; }
    if !i.prepared { return false, contacted; }
    contacted := true;
    if i.reply.None? || i.reply.value.0.Empty? { return false, contacted; }
    ok := store.Write(i.reply.value.0, KeyOf(i.csr), i.reply.value.1, i.get, i.meanwhile, i.put);
  }

  /** `RenewFlow.Run` */
  method RunRenew(store: Store, clusterID: string, brainURL: string, threshold: bool, i: Inputs) returns (ok: bool, contacted: bool)
    requires Later(store.server, i.meanwhile)
    modifies store
    ensures clusterID == "" || brainURL == "" ==> !ok && !contacted && store.server == old(store.server)
    ensures clusterID != "" && brainURL != "" ==> RenewEnds(old(store.server), threshold, i, ok, contacted, store.server)
  {
    contacted := false;
    if clusterID == "" || brainURL == "" { return false, contacted; }
    var present := store.Exists(i.exists_);
    if present.None? || !present.value { return false, contacted; }
    var current := store.Read(i.read);
    if current.None? { return false, contacted; }
    var (cert, key, ca) := current.value;
    if threshold && Parses(cert) && i.fresh_ { return true, contacted; }
    if !Matched(cert, key) { return false, contacted; }
    if !i.prepared { return false, contacted; }
    contacted := true;
    if i.reply.None? || i.reply.value.0.Empty? { return false, contacted; }
    ok := store.Write(i.reply.value.0, KeyOf(i.csr), i.reply.value.1, i.get, i.meanwhile, i.put);
  }

  /** What a renew run does with a stored pair that it can read, by what the pair is: the first block a
      certificate with more than the threshold left is skipped with success; else a certificate with the key of
      its own request goes to the brain, if everything needed is there; and anything else ends the run. */
  lemma RenewDecision(secret: Secret, threshold: bool, i: Inputs, ok: bool, contacted: bool, after: Option<Secret>)
    requires RenewEnds(Some(secret), threshold, i, ok, contacted, after) && i.exists_.Reaches? && i.read.Reaches?
    requires Crt in secret.data && Key in secret.data && !secret.data[Crt].Empty? && !secret.data[Key].Empty?
    ensures var crt, key := secret.data[Crt], secret.data[Key];
            if threshold && i.fresh_ && (crt.CertOf? || crt.Junk?) && crt.first then ok && !contacted && after == Some(secret)
            else if crt.CertOf? && key == KeyOf(crt.csr) then
              (contacted <==> i.prepared) && (!contacted ==> !ok && after == Some(secret))
            else !ok && !contacted && after == Some(secret)
  {
  }

  /** What a bootstrap run does: nothing, with success, when a pair is stored, whatever it is; else it needs a
      token that is not blank. */
  lemma BootstrapDecision(server: Option<Secret>, i: Inputs, ok: bool, contacted: bool, after: Option<Secret>)
    requires BootstrapEnds(server, i, ok, contacted, after) && i.exists_.Reaches?
    ensures var stored := server.Some? && Crt in server.value.data && Key in server.value.data
                          && !server.value.data[Crt].Empty? && !server.value.data[Key].Empty?;
            if stored then ok && !contacted && after == server
            else (contacted <==> i.token.Some? && TrimSpace(i.token.value) != "" && i.prepared) && (!contacted ==> !ok && after == server)
  {
  }

  /** What is stored after a contact: exactly when the answer is a certificate and nobody has changed the Secret in
      between, that certificate, the key of the request, and the new CA or else the old one. */
  lemma StoredAfterContact(server: Option<Secret>, i: Inputs, ok: bool, after: Option<Secret>)
    requires EndsAfterContact(server, i, ok, after) && i.reply.Some? && ok
    ensures var (cert, ca) := i.reply.value;
            && !cert.Empty? && i.get.Reaches? && i.put.Reaches? && i.meanwhile == server
            && after.Some? && At(after.value.data, Crt) == cert && At(after.value.data, Key) == KeyOf(i.csr)
            && At(after.value.data, Ca) == if !ca.Empty? then ca else if server.Some? then At(server.value.data, Ca) else Empty
  {
  }

  /** What becomes of a certificate that `certRemaining` cannot read, when nothing else is in the way: the
      run proceeds to the brain if and only if the pair still loads. */
  lemma UnreadableIsRenewedIffMatched(server: Option<Secret>, threshold: bool, i: Inputs, ok: bool, contacted: bool, after: Option<Secret>)
    requires RenewEnds(server, threshold, i, ok, contacted, after) && Provisioned(server) && !Parses(At(server.value.data, Crt))
    requires i.exists_.Reaches? && i.read.Reaches? && i.prepared
    ensures contacted <==> Matched(At(server.value.data, Crt), At(server.value.data, Key))
    ensures !contacted ==> !ok && after == server
  {
  }

  // ---------------------------------------------------------------------
  // Undisturbed runs of the step system

  /** The outside of a step, for a run with these inputs. */
  function WorldAt(p: Proc, threshold: bool, i: Inputs): World {
    match p.pc
    case Checking => World(i.exists_, false, HasToken(i) && i.prepared, None)
    case Reading => World(i.read, threshold && i.fresh_, i.prepared, None)
    case Calling(_) => World(Reaches, false, true, i.reply)
    case Fetching(_, _, _) => World(i.get, false, true, None)
    case _ => World(i.put, false, true, None)
  }

  function Rank(pc: Pc): nat {
    match pc
    case Checking => 5
    case Reading => 4
    case Calling(_) => 3
    case Fetching(_, _, _) => 2
    case Writing(_, _, _, _) => 1
    case Ended(_) => 0
  }

  /** Process 0 run to its end with nobody else acting. */
  function Solo(s: State, threshold: bool, i: Inputs): (t: State)
    requires 0 in s.procs
    ensures 0 in t.procs && t.procs[0].pc.Ended?
    decreases Rank(s.procs[0].pc)
  {
    if s.procs[0].pc.Ended? then s
    else Solo(Apply(s, Step(0, WorldAt(s.procs[0], threshold, i))), threshold, i)
  }

  /** That is one of the runs. */
  lemma {:induction false} SoloIsRun(s: State, threshold: bool, i: Inputs) returns (acts: seq<Action>)
    requires 0 in s.procs
    ensures Feasible(s, acts) && Exec(s, acts) == Solo(s, threshold, i)
    decreases Rank(s.procs[0].pc)
  {
    acts := [];
    if !s.procs[0].pc.Ended? {
      var a := Step(0, WorldAt(s.procs[0], threshold, i));
      var rest := SoloIsRun(Apply(s, a), threshold, i);
      acts := [a] + rest;
      assert acts[0] == a && acts[1..] == rest;
    }
  }

  /** How the run goes on once it has contacted the brain. */
  lemma SoloCall(s: State, threshold: bool, i: Inputs)
    requires 0 in s.procs && s.procs[0].pc == Calling(i.csr) && i.meanwhile == s.server
    ensures var t := Solo(s, threshold, i);
            0 in t.contacted && EndsAfterContact(s.server, i, t.procs[0].pc.ok, t.server)
  {
    var s1 := Apply(s, Step(0, WorldAt(s.procs[0], threshold, i)));
    if s1.procs[0].pc.Fetching? {
      var s2 := Apply(s1, Step(0, WorldAt(s1.procs[0], threshold, i)));
      assert Solo(s1, threshold, i) == Solo(s2, threshold, i);
      if s2.procs[0].pc.Writing? {
        assert Solo(s2, threshold, i) == Apply(s2, Step(0, WorldAt(s2.procs[0], threshold, i)));
      }
    }
  }

  /** A bootstrap run that nobody disturbs ends in the step system as the method does. */
  lemma SoloBootstrap(server: Option<Secret>, i: Inputs)
    requires i.meanwhile == server
    ensures var t := Solo(State(server, map[0 := Proc(Bootstrap, Checking)], i.csr, {}), false, i);
            BootstrapEnds(server, i, t.procs[0].pc.ok, 0 in t.contacted, t.server)
  {
    var s := State(server, map[0 := Proc(Bootstrap, Checking)], i.csr, {});
    var s1 := Apply(s, Step(0, WorldAt(s.procs[0], false, i)));
    if s1.procs[0].pc.Calling? { SoloCall(s1, false, i); }
  }

  /** And so does a renew run. */
  lemma SoloRenew(server: Option<Secret>, threshold: bool, i: Inputs)
    requires i.meanwhile == server
    ensures var t := Solo(State(server, map[0 := Proc(Renew, Checking)], i.csr, {}), threshold, i);
            RenewEnds(server, threshold, i, t.procs[0].pc.ok, 0 in t.contacted, t.server)
  {
    var s := State(server, map[0 := Proc(Renew, Checking)], i.csr, {});
    var s1 := Apply(s, Step(0, WorldAt(s.procs[0], threshold, i)));
    if s1.procs[0].pc.Reading? {
      var s2 := Apply(s1, Step(0, WorldAt(s1.procs[0], threshold, i)));
      assert Solo(s1, threshold, i) == Solo(s2, threshold, i);
      if s2.procs[0].pc.Calling? { SoloCall(s2, threshold, i); }
    }
  }
}
