/** The whole system as a machine, cut at its awaits: uploads, repairs, restores, deletes and prunes, name
    edits, faults on the anchor, peers answering anything, crashes and the clock, in any interleaving.
  */
module Cluster {
  import opened Prelude
  import opened Domain
  import opened Stores
  import opened ErasureCoder

  // ---- State ----

  /** What stays fixed over a run. */
  datatype Setup = Setup(h: Hash, coder: Coder, policy: NamespaceId -> RetentionPolicy)

  /** What a put was given, and its encoding. */
  datatype Origin = Origin(data: Bytes, params: ErasureParams, codeword: seq<Bytes>)

  /** A put past its quota check: `written` shards are on the anchor, `metas` are listed. */
  datatype Upload = Upload(
    start: nat, written: nat, placed: seq<Peer>, metas: seq<Shard>, stamp: Option<Timestamp>)

  /** Any other use case in flight. `start`, `floor` and `failed` are history: the length of the damage log and
      the blob's mark when it began, and the shards that the anchor failed to answer for. */
  datatype Task =
    | Repairing(key: BlobKey, m: Manifest, start: nat, floor: nat, collected: seq<Option<Bytes>>, bad: seq<nat>)
    | Rewriting(key: BlobKey, start: nat, renewed: seq<Bytes>, bad: seq<nat>, next: nat)
    | Restoring(key: BlobKey, m: Manifest, floor: nat, collected: seq<Option<Bytes>>, failed: set<nat>)
    | Naming(key: BlobKey, m: Manifest)
    | Reaping(key: BlobKey, created: Timestamp, granted: bool, dropped: bool)

  /** `origins`, `born`, `marks`, `reaped`, `delivered` and `damage` are history. A blob's mark is the point
      of the damage log at which the most recently begun of its completed repairs (or its put) began. */
  datatype State = State(
    now: Timestamp,
    anchor: map<ShardRef, Bytes>,
    manifests: map<BlobKey, Manifest>,
    uploads: map<BlobKey, Upload>,
    tasks: map<nat, Task>,
    origins: map<BlobKey, Origin>,
    born: map<BlobKey, Timestamp>,
    marks: map<BlobKey, nat>,
    reaped: set<BlobKey>,
    delivered: seq<Delivery>,
    damage: seq<ShardRef>)

  const BLANK := State(0, map[], map[], map[], map[], map[], map[], map[], {}, [], [])

  datatype UploadEvent =
    | UploadBegin(data: Bytes, params: ErasureParams)
    | UploadWrite
    | UploadSend(peer: Peer, accepted: bool)
    | UploadList
    | UploadStamp
    | UploadPublish
    | UploadCrash

  datatype UseCase = Repair | Restore | Rename | Reap

  datatype TaskEvent =
    | RepairRead
    | RepairBorrow(i: nat, reply: Bytes)
    | RepairDecide
    | RepairWrite
    | RepairSend(peer: Peer, accepted: bool)
    | RepairFinish
    | RestoreRead(fetched: Option<Bytes>, answers: bool)
    | NameWrite(nameEnc: Str, objectId: Option<Str>)
    | ReapCheck
    | ReapShards(spared: set<ShardRef>, done: bool)
    | ReapManifest
    | End

  datatype Event =
    | Tick(millis: nat)
    | Fault(at: ShardRef, left: Option<Bytes>)
    | OnUpload(key: BlobKey, upload: UploadEvent)
    | Begin(pid: nat, key: BlobKey, useCase: UseCase)
    | OnTask(pid: nat, task: TaskEvent)

  function Own(key: BlobKey, i: nat): ShardRef { ShardRef(key.0, key.1, i) }

  // ---- Steps; an event that is not enabled changes nothing ----

  /** A put: each shard to the anchor, then to peers, then listed; the clock; the manifest last. */
  ghost function UploadStep(u: Setup, s: State, key: BlobKey, e: UploadEvent): State {
    match e
    case UploadBegin(data, params) =>
      if key !in s.origins && Supports(u.coder, params) then
        var codeword := Encoded(u.coder, data, params).value;
        s.(origins := s.origins[key := Origin(data, params, codeword)],
           uploads := s.uploads[key := Upload(|s.damage|, 0, [], [], None)])
      else s
    case UploadWrite =>
      if key in s.uploads && key in s.origins
         && s.uploads[key].written == |s.uploads[key].metas| < |s.origins[key].codeword| then
        var p := s.uploads[key];
        s.(anchor := s.anchor[Own(key, p.written) := s.origins[key].codeword[p.written]],
           uploads := s.uploads[key := p.(written := p.written + 1, placed := [])])
      else s
    case UploadSend(peer, accepted) =>
      if key in s.uploads && key in s.origins
         && |s.uploads[key].metas| < s.uploads[key].written <= |s.origins[key].codeword| then
        var p := s.uploads[key];
        var i := p.written - 1;
        s.(delivered := s.delivered + [Delivery(peer, Own(key, i), s.origins[key].codeword[i], accepted)],
           uploads := s.uploads[key := p.(placed := if accepted then p.placed + [peer] else p.placed)])
      else s
    case UploadList =>
      if key in s.uploads && key in s.origins
         && |s.uploads[key].metas| < s.uploads[key].written <= |s.origins[key].codeword| then
        var p := s.uploads[key];
        var i := |p.metas|;
        var bytes := s.origins[key].codeword[i];
        s.(uploads := s.uploads[key :=
          p.(metas := p.metas + [Shard(i, u.h(bytes), |bytes| % U32_LIMIT, [Anchor] + AsPeers(p.placed))])])
      else s
    case UploadStamp =>
      if key in s.uploads && key in s.origins && |s.uploads[key].metas| == |s.origins[key].codeword| then
        s.(uploads := s.uploads[key := s.uploads[key].(stamp := Some(s.now))])
      else s
    case UploadPublish =>
      if key in s.uploads && key in s.origins && s.uploads[key].stamp.Some? then
        var p, o := s.uploads[key], s.origins[key];
        s.(manifests := s.manifests[key :=
             Manifest(key.1, key.0, o.params, p.metas, |o.data|, p.stamp.value, None, None)],
           born := s.born[key := p.stamp.value], marks := s.marks[key := p.start], uploads := s.uploads - {key})
      else s
    case UploadCrash => s.(uploads := s.uploads - {key})
  }

  function Valid(h: Hash, m: Manifest, i: nat, bytes: Bytes): bool
    requires i < |m.shards|
  {
    h(bytes) == m.shards[i].sha256
  }

  /** What the anchor gives for shard i: its bytes when present and valid. */
  function AnchorSlot(u: Setup, s: State, key: BlobKey, m: Manifest, i: nat): Option<Bytes>
    requires i < |m.shards|
  {
    var at := Own(key, m.shards[i].index);
    if at in s.anchor && Valid(u.h, m, i, s.anchor[at]) then Some(s.anchor[at]) else None
  }

  function WithTask(s: State, pid: nat, t: Task): (s': State)
    ensures s'.origins == s.origins && s'.anchor == s.anchor && s'.manifests == s.manifests
  {
    s.(tasks := s.tasks[pid := t])
  }

  function WithoutTask(s: State, pid: nat): (s': State)
    ensures s'.origins == s.origins && s'.anchor == s.anchor && s'.manifests == s.manifests
  {
    s.(tasks := s.tasks - {pid})
  }

  /** A repair reads every shard, borrows from peers while fewer than k are present, and decides. */
  ghost function RepairingStep(u: Setup, s: State, pid: nat, t: Task, e: TaskEvent): State
    requires t.Repairing?
  {
    var Repairing(key, m, start, floor, collected, bad) := t;
    match e
    case RepairRead =>
      if |collected| < |m.shards| then
        var slot := AnchorSlot(u, s, key, m, |collected|);
        WithTask(s, pid, Repairing(key, m, start, floor, collected + [slot],
          if slot.Some? then bad else bad + [m.shards[|collected|].index]))
      else s
    case RepairBorrow(i, reply) =>
      if |collected| == |m.shards| && CountSome(collected) < m.erasure.k && i < |collected| && collected[i].None?
         && Valid(u.h, m, i, reply)
      then WithTask(s, pid, Repairing(key, m, start, floor, collected[i := Some(reply)], bad))
      else s
    case RepairDecide =>
      if |collected| != |m.shards| || !m.erasure.WellFormed() then s
      else if bad == [] then WithTask(s, pid, Rewriting(key, start, [], [], 0))
      else if !m.IsReconstructable(CountSome(collected)) then WithoutTask(s, pid)
      else
        var decoded := Decoded(u.coder, collected, m.erasure, m.ciphertextLen);
        if decoded.Err? then WithoutTask(s, pid)
        else
          var renewed := Encoded(u.coder, decoded.value, m.erasure);
          if renewed.Err? then WithoutTask(s, pid)
          else WithTask(s, pid, Rewriting(key, start, renewed.value, bad, 0))
    case _ => s
  }

  /** It then rewrites the bad shards one by one, offering each to peers. */
  ghost function RewritingStep(s: State, pid: nat, t: Task, e: TaskEvent): State
    requires t.Rewriting?
  {
    var Rewriting(key, start, renewed, bad, next) := t;
    match e
    case RepairWrite =>
      if next < |bad| && bad[next] < |renewed| then
        WithTask(s.(anchor := s.anchor[Own(key, bad[next]) := renewed[bad[next]]]), pid,
          Rewriting(key, start, renewed, bad, next + 1))
      else s
    case RepairSend(peer, accepted) =>
      if 0 < next <= |bad| && bad[next - 1] < |renewed| then
        var i := bad[next - 1];
        s.(delivered := s.delivered + [Delivery(peer, Own(key, i), renewed[i], accepted)])
      else s
    case RepairFinish =>
      if next == |bad| && key in s.marks then
        WithoutTask(s.(marks := s.marks[key := Max(s.marks[key], start)]), pid)
      else s
    case _ => s
  }

  /** A restore takes each shard from a peer with a valid copy or else from the anchor, if that answers. */
  ghost function RestoringStep(u: Setup, s: State, pid: nat, t: Task, e: TaskEvent): State
    requires t.Restoring?
  {
    var Restoring(key, m, floor, collected, failed) := t;
    match e
    case RestoreRead(fetched, answers) =>
      if |collected| < |m.shards| then
        if fetched.Some? && Valid(u.h, m, |collected|, fetched.value) then
          WithTask(s, pid, Restoring(key, m, floor, collected + [fetched], failed))
        else if answers then
          WithTask(s, pid, Restoring(key, m, floor, collected + [AnchorSlot(u, s, key, m, |collected|)], failed))
        else
          WithTask(s, pid, Restoring(key, m, floor, collected + [None], failed + {|collected|}))
      else s
    case _ => s
  }

  /** A name edit stores back the manifest it read, renamed. */
  ghost function NamingStep(s: State, pid: nat, t: Task, e: TaskEvent): State
    requires t.Naming?
  {
    var Naming(key, m) := t;
    match e
    case NameWrite(nameEnc, objectId) =>
      WithoutTask(s.(manifests := s.manifests[(m.namespace, m.blobId) :=
        m.(nameEnc := Some(nameEnc), objectId := if objectId.Some? then objectId else m.objectId)]), pid)
    case _ => s
  }

  /** A delete or prune checks the hold, drops the shards, then the manifest. */
  ghost function ReapingStep(u: Setup, s: State, pid: nat, t: Task, e: TaskEvent): State
    requires t.Reaping?
  {
    var Reaping(key, created, granted, dropped) := t;
    match e
    case ReapCheck =>
      if u.policy(key.0).HoldElapsed(created, s.now) then WithTask(s, pid, Reaping(key, created, true, dropped))
      else WithoutTask(s, pid)
    case ReapShards(spared, done) =>
      if granted then
        var kept := if done then {} else spared;
        WithTask(
          s.(anchor := map at | at in s.anchor && ((at.namespace, at.blobId) != key || at in kept) :: s.anchor[at],
             reaped := s.reaped + {key}),
          pid, Reaping(key, created, true, dropped || done))
      else s
    case ReapManifest =>
      if granted && dropped then WithoutTask(s.(manifests := s.manifests - {key}), pid) else s
    case _ => s
  }

  /** A use case begins by reading the manifest. A delete without a hold reads none. */
  ghost function BeginStep(u: Setup, s: State, pid: nat, key: BlobKey, c: UseCase): State {
    match c
    case Repair =>
      if key in s.manifests && key in s.marks then
        WithTask(s, pid, Repairing(key, s.manifests[key], |s.damage|, s.marks[key], [], []))
      else s
    case Restore =>
      if key in s.manifests && key in s.marks then
        WithTask(s, pid, Restoring(key, s.manifests[key], s.marks[key], [], {}))
      else s
    case Rename =>
      if key in s.manifests then WithTask(s, pid, Naming(key, s.manifests[key])) else s
    case Reap =>
      if u.policy(key.0).minDays == 0 then WithTask(s, pid, Reaping(key, 0, true, false))
      else if key in s.manifests then WithTask(s, pid, Reaping(key, s.manifests[key].createdAt, false, false))
      else s
  }

  /** A task may also end at any point, crashed or done. */
  ghost function TaskStep(u: Setup, s: State, pid: nat, t: Task, e: TaskEvent): State {
    if e.End? then WithoutTask(s, pid)
    else
      match t
      case Repairing(_, _, _, _, _, _) => RepairingStep(u, s, pid, t, e)
      case Rewriting(_, _, _, _, _) => RewritingStep(s, pid, t, e)
      case Restoring(_, _, _, _, _) => RestoringStep(u, s, pid, t, e)
      case Naming(_, _) => NamingStep(s, pid, t, e)
      case Reaping(_, _, _, _) => ReapingStep(u, s, pid, t, e)
  }

  ghost function Step(u: Setup, s: State, e: Event): State {
    match e
    case Tick(millis) => s.(now := s.now + millis)
    case Fault(at, left) =>
      s.(anchor := if left.Some? then s.anchor[at := left.value] else s.anchor - {at}, damage := s.damage + [at])
    case OnUpload(key, upload) => UploadStep(u, s, key, upload)
    case Begin(pid, key, useCase) => if pid in s.tasks then s else BeginStep(u, s, pid, key, useCase)
    case OnTask(pid, task) => if pid in s.tasks then TaskStep(u, s, pid, s.tasks[pid], task) else s
  }

  ghost function After(u: Setup, events: seq<Event>): State {
    if events == [] then BLANK
    else Step(u, After(u, events[..|events| - 1]), events[|events| - 1])
  }

  /** The bytes an event brings in from outside: what a fault leaves, what a peer answers. */
  function ShownBy(e: Event): set<Bytes> {
    match e
    case Fault(_, Some(left)) => {left}
    case OnTask(_, RepairBorrow(_, reply)) => {reply}
    case OnTask(_, RestoreRead(Some(fetched), _)) => {fetched}
    case _ => {}
  }

  function Shown(events: seq<Event>): set<Bytes> {
    if events == [] then {}
    else Shown(events[..|events| - 1]) + ShownBy(events[|events| - 1])
  }
}
