/** What an upload in progress does to the disk: gateway/src/artifacts/store.ts:58-88 with every await a
    point where others may act. All uploads of a job stream into one part file, and a stream keeps the
    file it opened: a rename carries that file into place, open streams and all, and a removal leaves
    them writing to a file that has no name. */
module Uploads {
  import opened Types
  import opened Artifacts

  /** The name under which the file a stream is writing can be found. */
  datatype Place = InPart | InFile | Unlinked

  /** `Admitted`: past the lease check, the part file not yet opened. `Renamed`: in place, not yet answered. */
  datatype Stage = Admitted | Writing(place: Place) | Renamed

  /** One arrival of an upload; `pod` is the job's pod as read on arrival. */
  datatype Stream = Stream(lease: LeaseId, job: JobId, pod: Option<PodId>, body: Bytes, sent: nat, stage: Stage)

  /** `parts` are the part files. `clashed` and `acked` are history: the jobs for which an upload was ever
      admitted while another was in progress, and the leases whose upload was answered with success.
      A cleanup pass removes the files of `listed` jobs one by one; `removing` are those whose artifact
      list it has not emptied yet. */
  datatype Disk = Disk(files: map<(JobId, string), Bytes>, parts: map<JobId, Bytes>, streams: map<nat, Stream>,
                       clashed: set<JobId>, acked: set<LeaseId>, listed: set<JobId>, removing: set<JobId>)

  /** The uploads of a job that are in progress. */
  function UploadsOf(d: Disk, id: JobId): set<nat> {
    set u | u in d.streams && d.streams[u].job == id
  }

  /** One thing that happens to the job directories. */
  datatype Move =
    | Admit(u: nat, x: Stream)
    | Open(u: nat)
    | Write(u: nat, n: nat)
    | Rename(u: nat)
    | Break(u: nat)
    | End(u: nat)
    | Remove(id: JobId)
    | Crash
    | Keep

  predicate CanMove(d: Disk, m: Move) {
    match m
    case Admit(u, x) => u !in d.streams && x.stage.Admitted? && x.sent == 0
    case Open(u) => u in d.streams && d.streams[u].stage.Admitted?
    case Write(u, n) => u in d.streams && d.streams[u].stage.Writing? && n > 0 && d.streams[u].sent + n <= |d.streams[u].body|
    case Rename(u) => u in d.streams && d.streams[u].stage.Writing? && d.streams[u].sent == |d.streams[u].body|
    case Break(u) => u in d.streams && !d.streams[u].stage.Renamed?
    case End(u) => u in d.streams && d.streams[u].stage.Renamed?
    case Remove(_) => true
    case Crash => true
    case Keep => true
  }

  /** Bytes `w` written at offset `at`; a gap reads as zeros. */
  function Overlay(b: Bytes, at: nat, w: Bytes): Bytes {
    var padded := if |b| < at then b + seq(at - |b|, _ => 0) else b;
    padded[..at] + w + if at + |w| < |padded| then padded[at + |w|..] else []
  }

  function AfterWrite(d: Disk, id: JobId, place: Place, at: nat, w: Bytes): Disk {
    match place
    case InPart => if id in d.parts then d.(parts := d.parts[id := Overlay(d.parts[id], at, w)]) else d
    case InFile =>
      if (id, OUTPUT) in d.files then d.(files := d.files[(id, OUTPUT) := Overlay(d.files[(id, OUTPUT)], at, w)]) else d
    case Unlinked => d
  }

  /** The streams of job `id` find their files under new names. */
  function Relinked(streams: map<nat, Stream>, id: JobId, part: Place, file: Place): map<nat, Stream> {
    map u | u in streams ::
      if streams[u].job != id || !streams[u].stage.Writing? then streams[u]
      else if streams[u].stage.place.InPart? then streams[u].(stage := Writing(part))
      else if streams[u].stage.place.InFile? then streams[u].(stage := Writing(file))
      else streams[u]
  }

  function Moved(d: Disk, m: Move): Disk
    requires CanMove(d, m)
  {
    match m
    case Admit(u, x) =>
      d.(streams := d.streams[u := x], clashed := if UploadsOf(d, x.job) == {} then d.clashed else d.clashed + {x.job})
    case Open(u) =>
      var x := d.streams[u];
      d.(parts := d.parts[x.job := []], streams := d.streams[u := x.(stage := Writing(InPart))])
    case Write(u, n) =>
      var x := d.streams[u];
      var d' := AfterWrite(d, x.job, x.stage.place, x.sent, x.body[x.sent..x.sent + n]);
      d'.(streams := d.streams[u := x.(sent := x.sent + n)])
    case Rename(u) =>
      var x := d.streams[u];
      if x.job in d.parts then
        d.(files := d.files[(x.job, OUTPUT) := d.parts[x.job]], parts := d.parts - {x.job},
           streams := Relinked(d.streams, x.job, InFile, Unlinked)[u := x.(stage := Renamed)])
      else d.(streams := d.streams - {u})
    case Break(u) =>
      var x := d.streams[u];
      d.(parts := d.parts - {x.job}, streams := Relinked(d.streams, x.job, Unlinked, InFile) - {u})
    case End(u) => d.(streams := d.streams - {u}, acked := d.acked + {d.streams[u].lease})
    case Remove(id) =>
      d.(files := Without(d.files, id), parts := d.parts - {id}, streams := Relinked(d.streams, id, Unlinked, Unlinked))
    case Crash => d.(streams := map[])
    case Keep => d
  }

  /** A write changes exactly the bytes it covers, and fills the gap before it with zeros. */
  lemma {:induction false} OverlayAt(b: Bytes, at: nat, w: Bytes, k: nat)
    ensures |Overlay(b, at, w)| == if at + |w| < |b| then |b| else at + |w|
    ensures k < |Overlay(b, at, w)| ==>
      Overlay(b, at, w)[k] == if at <= k < at + |w| then w[k - at] else if k < |b| then b[k] else 0
  {
  }

  /** What each move does to the job's part file and file. A write goes to the file the stream has open,
      whatever it is called by now; a rename takes the part file as it is; whoever breaks off takes the part
      file along, and streams that had it open write on without a name. */
  lemma {:induction false} MovesAre(d: Disk, m: Move, id: JobId)
    requires CanMove(d, m)
    ensures m.Open? && d.streams[m.u].job == id ==> id in Moved(d, m).parts && Moved(d, m).parts[id] == []
    ensures m.Write? && d.streams[m.u].job == id && d.streams[m.u].stage == Writing(InPart) && id in d.parts ==>
      (var x := d.streams[m.u];
       id in Moved(d, m).parts && Moved(d, m).parts[id] == Overlay(d.parts[id], x.sent, x.body[x.sent..x.sent + m.n])
       && Moved(d, m).files == d.files)
    ensures m.Write? && d.streams[m.u].job == id && d.streams[m.u].stage == Writing(InFile) && (id, OUTPUT) in d.files ==>
      (var x := d.streams[m.u];
       (id, OUTPUT) in Moved(d, m).files && Moved(d, m).parts == d.parts
       && Moved(d, m).files[(id, OUTPUT)] == Overlay(d.files[(id, OUTPUT)], x.sent, x.body[x.sent..x.sent + m.n]))
    ensures m.Write? && d.streams[m.u].stage == Writing(Unlinked) ==> Moved(d, m).files == d.files && Moved(d, m).parts == d.parts
    ensures m.Rename? && d.streams[m.u].job == id && id in d.parts ==>
      (id, OUTPUT) in Moved(d, m).files && Moved(d, m).files[(id, OUTPUT)] == d.parts[id] && id !in Moved(d, m).parts
      && (forall v :: v in d.streams && v != m.u && d.streams[v].job == id && d.streams[v].stage == Writing(InPart) ==>
            v in Moved(d, m).streams && Moved(d, m).streams[v].stage == Writing(InFile))
      && (forall v :: v in d.streams && v != m.u && d.streams[v].job == id && d.streams[v].stage == Writing(InFile) ==>
            v in Moved(d, m).streams && Moved(d, m).streams[v].stage == Writing(Unlinked))
    ensures m.Rename? && d.streams[m.u].job !in d.parts ==>
      Moved(d, m).files == d.files && m.u !in Moved(d, m).streams
    ensures m.Break? && d.streams[m.u].job == id ==>
      id !in Moved(d, m).parts && Moved(d, m).files == d.files && m.u !in Moved(d, m).streams
      && (forall v :: v in d.streams && v != m.u && d.streams[v].job == id && d.streams[v].stage == Writing(InPart) ==>
            v in Moved(d, m).streams && Moved(d, m).streams[v].stage == Writing(Unlinked))
  {
    hide Overlay;
  }

  /** Where the streams after a move come from. */
  lemma {:induction false} StreamsFrom(d: Disk, m: Move, u: nat)
    requires CanMove(d, m) && u in Moved(d, m).streams
    ensures if m.Admit? && m.u == u then Moved(d, m).streams[u] == m.x
      else
        u in d.streams
        && Moved(d, m).streams[u] == d.streams[u].(sent := Moved(d, m).streams[u].sent, stage := Moved(d, m).streams[u].stage)
        && (Moved(d, m).streams[u].stage.Renamed? ==> d.streams[u].stage.Renamed? || (m == Rename(u) && d.streams[u].job in d.parts))
  {
  }

  /** What a move does to the histories. */
  lemma {:induction false} Histories(d: Disk, m: Move)
    requires CanMove(d, m)
    ensures Moved(d, m).acked == if m.End? then d.acked + {d.streams[m.u].lease} else d.acked
    ensures Moved(d, m).clashed == if m.Admit? && UploadsOf(d, m.x.job) != {} then d.clashed + {m.x.job} else d.clashed
    ensures Moved(d, m).listed == d.listed && Moved(d, m).removing == d.removing
    ensures m.Admit? ==> forall v :: v in d.streams && d.streams[v].job == m.x.job ==> m.x.job in Moved(d, m).clashed
  {
    if m.Admit? { assert forall v :: v in d.streams && d.streams[v].job == m.x.job ==> v in UploadsOf(d, m.x.job); }
  }

  // ------------------------------------------------------------ uploads that keep to themselves

  /** A stream alone with its part file has written there what it has sent. */
  predicate OnTrack(d: Disk, x: Stream) {
    match x.stage
    case Admitted => x.sent == 0
    case Writing(place) =>
      (match place
       case InPart => x.sent <= |x.body| && x.job in d.parts && d.parts[x.job] == x.body[..x.sent]
       case InFile => false
       case Unlinked => x.job !in d.parts)
    case Renamed => true
  }

  /** The uploads of a job that never clashed come one at a time, and each is on track. */
  ghost predicate Orderly(d: Disk) {
    && (forall u, v :: u in d.streams && v in d.streams && d.streams[u].job == d.streams[v].job && d.streams[u].job !in d.clashed
          ==> u == v)
    && (forall u :: u in d.streams && d.streams[u].job !in d.clashed ==> OnTrack(d, d.streams[u]))
  }

  lemma {:induction false} OverlayAppends(body: Bytes, sent: nat, n: nat)
    requires sent + n <= |body|
    ensures Overlay(body[..sent], sent, body[sent..sent + n]) == body[..sent + n]
  {
    assert body[..sent][..sent] == body[..sent];
    assert body[..sent] + body[sent..sent + n] == body[..sent + n];
  }

  lemma {:induction false} OneAtATime(d: Disk, m: Move, u: nat, v: nat)
    requires Orderly(d) && CanMove(d, m)
    requires u in Moved(d, m).streams && v in Moved(d, m).streams && Moved(d, m).streams[u].job == Moved(d, m).streams[v].job
    requires Moved(d, m).streams[u].job !in Moved(d, m).clashed
    ensures u == v
  {
    hide Moved, OnTrack;
    StreamsFrom(d, m, u);
    StreamsFrom(d, m, v);
    Histories(d, m);
  }

  /** No other stream of the job moves. */
  lemma {:induction false} TrackOf(d: Disk, m: Move, u: nat)
    requires CanMove(d, m) && u in d.streams && u in Moved(d, m).streams && OnTrack(d, d.streams[u])
    requires m.Open? || m.Write? || m.Rename? || m.Break? || m.End? ==> d.streams[m.u].job == d.streams[u].job ==> m.u == u
    ensures OnTrack(Moved(d, m), Moved(d, m).streams[u])
  {
    if m.Write? && m.u == u { OverlayAppends(d.streams[u].body, d.streams[u].sent, m.n); }
  }

  lemma {:induction false} TrackKept(d: Disk, m: Move, u: nat)
    requires Orderly(d) && CanMove(d, m)
    requires u in Moved(d, m).streams && Moved(d, m).streams[u].job !in Moved(d, m).clashed
    ensures OnTrack(Moved(d, m), Moved(d, m).streams[u])
  {
    hide UploadsOf, Overlay;
    Histories(d, m);
    StreamsFrom(d, m, u);
    if u in d.streams { TrackOf(d, m, u); }
  }

  lemma {:induction false} OrderlyMove(d: Disk, m: Move)
    requires Orderly(d) && CanMove(d, m)
    ensures Orderly(Moved(d, m))
  {
    hide Moved, OnTrack;
    var d' := Moved(d, m);
    forall u, v | u in d'.streams && v in d'.streams && d'.streams[u].job == d'.streams[v].job && d'.streams[u].job !in d'.clashed
      ensures u == v {
      OneAtATime(d, m, u, v);
    }
    forall u | u in d'.streams && d'.streams[u].job !in d'.clashed ensures OnTrack(d', d'.streams[u]) { TrackKept(d, m, u); }
  }

  /** What a move does to the file of job `id`. Without a clash only a rename puts bytes there, and they
      are the body of that upload. */
  lemma {:induction false} FileMove(d: Disk, m: Move, id: JobId)
    requires Orderly(d) && CanMove(d, m) && id !in d.clashed
    ensures var files, files' := d.files, Moved(d, m).files;
      if m == Remove(id) then (id, OUTPUT) !in files'
      else if m.Rename? && d.streams[m.u].job == id && id in d.parts then
        (id, OUTPUT) in files' && files'[(id, OUTPUT)] == d.streams[m.u].body
      else
        ((id, OUTPUT) in files' <==> (id, OUTPUT) in files)
        && ((id, OUTPUT) in files ==> files'[(id, OUTPUT)] == files[(id, OUTPUT)])
  {
    if m.Rename? { assert d.streams[m.u].body[..|d.streams[m.u].body|] == d.streams[m.u].body; }
  }

  /** With or without clashes: only a removal takes a file, and only a rename brings one. */
  lemma {:induction false} FilesStay(d: Disk, m: Move, id: JobId)
    requires CanMove(d, m)
    ensures (id, OUTPUT) in d.files && m != Remove(id) ==> (id, OUTPUT) in Moved(d, m).files
    ensures UploadsOf(d, id) == {} && m != Remove(id) ==>
      forall k: (JobId, string) :: k.0 == id ==> (k in Moved(d, m).files <==> k in d.files) && (k in d.files ==> Moved(d, m).files[k] == d.files[k])
    ensures m == Remove(id) ==> forall k: (JobId, string) :: k.0 == id ==> k !in Moved(d, m).files
  {
    if (m.Write? || m.Rename?) && d.streams[m.u].job == id { assert m.u in UploadsOf(d, id); }
  }

}
