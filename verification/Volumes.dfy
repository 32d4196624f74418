/** Volumes and mounts of the HeatAPI pod template: nested accumulating loops against
    filter-then-flatten, and closure: every mount names a declared volume.
 */
module Volumes {
  import opened Names

  datatype Volume = Volume(name: string, source: string)
  datatype Mount = Mount(name: string, path: string, subPath: string, readOnly: bool)

  /** One entry of an extra-mount list: volumes and mounts that travel together. */
  datatype Entry = Entry(propagation: seq<string>, volumes: seq<Volume>, mounts: seq<Mount>)

  /** One `HeatExtraVolMounts` */
  datatype ExtraMounts = ExtraMounts(entries: seq<Entry>)

  /** The storage library's choice of how often an entry is propagated to a group of services: an
      argument, since its source is not part of this model. Not at all is 0. */
  type Propagation = Entry -> nat

  // ---------------------------------------------------------------- filter, then flatten

  function Repeated(e: Entry, n: nat): seq<Entry> {
    if n == 0 then [] else Repeated(e, n - 1) + [e]
  }

  function Propagated(entries: seq<Entry>, p: Propagation): seq<Entry> {
    if entries == [] then []
    else Propagated(entries[..|entries| - 1], p) + Repeated(entries[|entries| - 1], p(entries[|entries| - 1]))
  }

  /** All entries that reach the service, in order. */
  function Selected(extra: seq<ExtraMounts>, p: Propagation): seq<Entry> {
    if extra == [] then []
    else Selected(extra[..|extra| - 1], p) + Propagated(extra[|extra| - 1].entries, p)
  }

  function VolumesOf(entries: seq<Entry>): seq<Volume> {
    if entries == [] then [] else VolumesOf(entries[..|entries| - 1]) + entries[|entries| - 1].volumes
  }

  function MountsOf(entries: seq<Entry>): seq<Mount> {
    if entries == [] then [] else MountsOf(entries[..|entries| - 1]) + entries[|entries| - 1].mounts
  }

  lemma ConcatIsAssociative<T>(a: seq<T>, b: seq<T>, c: seq<T>)
    ensures (a + b) + c == a + (b + c)
  {
  }

  lemma {:induction false} OfConcat(a: seq<Entry>, b: seq<Entry>)
    ensures VolumesOf(a + b) == VolumesOf(a) + VolumesOf(b) && MountsOf(a + b) == MountsOf(a) + MountsOf(b)
    decreases |b|
  {
    if b == [] {
      assert a + b == a;
    } else {
      var most, last := b[..|b| - 1], b[|b| - 1];
      assert (a + b)[..|a + b| - 1] == a + most && (a + b)[|a + b| - 1] == last;
      OfConcat(a, most);
      ConcatIsAssociative(VolumesOf(a), VolumesOf(most), last.volumes);
      ConcatIsAssociative(MountsOf(a), MountsOf(most), last.mounts);
    }
  }

  // ---------------------------------------------------------------- what arrives

  /** All entries of all extra mounts, one after the other. */
  function Listed(extra: seq<ExtraMounts>): seq<Entry> {
    if extra == [] then [] else extra[0].entries + Listed(extra[1..])
  }

  function Kept(entries: seq<Entry>, p: Propagation): seq<Entry> {
    if entries == [] then [] else (if p(entries[0]) > 0 then [entries[0]] else []) + Kept(entries[1..], p)
  }

  function AllVolumes(entries: seq<Entry>): seq<Volume> {
    if entries == [] then [] else entries[0].volumes + AllVolumes(entries[1..])
  }

  function AllMounts(entries: seq<Entry>): seq<Mount> {
    if entries == [] then [] else entries[0].mounts + AllMounts(entries[1..])
  }

  function VolumeCount(entries: seq<Entry>, p: Propagation): nat {
    if entries == [] then 0 else p(entries[0]) * |entries[0].volumes| + VolumeCount(entries[1..], p)
  }

  function MountCount(entries: seq<Entry>, p: Propagation): nat {
    if entries == [] then 0 else p(entries[0]) * |entries[0].mounts| + MountCount(entries[1..], p)
  }

  /** After the base come the volumes of every propagated entry and of no other, as often as it is
      propagated; and if that is once at most, they come in the order of the lists. */
  ghost predicate VolumesArrive(base: seq<Volume>, volumes: seq<Volume>, extra: seq<ExtraMounts>, p: Propagation) {
    && base <= volumes && |volumes| == |base| + VolumeCount(Listed(extra), p)
    && (forall x, e, v | x in extra && e in x.entries && v in e.volumes && p(e) > 0 :: v in volumes)
    && (forall v | v in volumes[|base|..] :: exists e :: e in Listed(extra) && p(e) > 0 && v in e.volumes)
    && ((forall e | e in Listed(extra) :: p(e) <= 1) ==> volumes == base + AllVolumes(Kept(Listed(extra), p)))
    && ((forall e | e in Listed(extra) :: p(e) == 1) ==> volumes == base + AllVolumes(Listed(extra)))
  }

  ghost predicate MountsArrive(base: seq<Mount>, mounts: seq<Mount>, extra: seq<ExtraMounts>, p: Propagation) {
    && base <= mounts && |mounts| == |base| + MountCount(Listed(extra), p)
    && (forall x, e, m | x in extra && e in x.entries && m in e.mounts && p(e) > 0 :: m in mounts)
    && (forall m | m in mounts[|base|..] :: exists e :: e in Listed(extra) && p(e) > 0 && m in e.mounts)
    && ((forall e | e in Listed(extra) :: p(e) <= 1) ==> mounts == base + AllMounts(Kept(Listed(extra), p)))
    && ((forall e | e in Listed(extra) :: p(e) == 1) ==> mounts == base + AllMounts(Listed(extra)))
  }

  lemma {:induction false} PropagatedConcat(a: seq<Entry>, b: seq<Entry>, p: Propagation)
    ensures Propagated(a + b, p) == Propagated(a, p) + Propagated(b, p)
    decreases |b|
  {
    if b == [] {
      assert a + b == a;
    } else {
      var most, last := b[..|b| - 1], b[|b| - 1];
      assert (a + b)[..|a + b| - 1] == a + most && (a + b)[|a + b| - 1] == last;
      PropagatedConcat(a, most, p);
      ConcatIsAssociative(Propagated(a, p), Propagated(most, p), Repeated(last, p(last)));
    }
  }

  lemma PropagatedCons(entries: seq<Entry>, p: Propagation)
    requires entries != []
    ensures Propagated(entries, p) == Repeated(entries[0], p(entries[0])) + Propagated(entries[1..], p)
  {
    var e := entries[0];
    assert entries == [e] + entries[1..] && [e][..0] == [];
    assert Propagated([e], p) == [] + Repeated(e, p(e)) by {
      assert Propagated([], p) == [];
    }
    PropagatedConcat([e], entries[1..], p);
  }

  lemma {:induction false} ListedConcat(a: seq<ExtraMounts>, b: seq<ExtraMounts>)
    ensures Listed(a + b) == Listed(a) + Listed(b)
  {
    if a == [] {
      assert a + b == b;
    } else {
      assert (a + b)[0] == a[0] && (a + b)[1..] == a[1..] + b;
      ListedConcat(a[1..], b);
      ConcatIsAssociative(a[0].entries, Listed(a[1..]), Listed(b));
    }
  }

  /** Filtering list by list is filtering all the lists at once. */
  lemma {:induction false} SelectedIsPropagated(extra: seq<ExtraMounts>, p: Propagation)
    ensures Selected(extra, p) == Propagated(Listed(extra), p)
  {
    if extra != [] {
      var most, last := extra[..|extra| - 1], extra[|extra| - 1];
      SelectedIsPropagated(most, p);
      assert extra == most + [last] && [last][1..] == [];
      assert Listed([last]) == last.entries + [] == last.entries;
      ListedConcat(most, [last]);
      PropagatedConcat(Listed(most), last.entries, p);
    }
  }

  lemma {:induction false} ListedIff(extra: seq<ExtraMounts>, e: Entry)
    ensures e in Listed(extra) <==> exists x :: x in extra && e in x.entries
  {
    if extra != [] {
      ListedIff(extra[1..], e);
      if x :| x in extra && e in x.entries {
        assert x == extra[0] || x in extra[1..];
      }
      if e in extra[0].entries {
        assert extra[0] in extra;
      }
    }
  }

  lemma {:induction false} RepeatedCount(e: Entry, n: nat)
    ensures |VolumesOf(Repeated(e, n))| == n * |e.volumes| && |MountsOf(Repeated(e, n))| == n * |e.mounts|
    ensures n > 0 ==> e in Repeated(e, n)
    ensures n == 1 ==> Repeated(e, n) == [e]
  {
    if n > 0 {
      RepeatedCount(e, n - 1);
      assert Repeated(e, n)[..|Repeated(e, n)| - 1] == Repeated(e, n - 1);
      Distribute(n - 1, |e.volumes|);
      Distribute(n - 1, |e.mounts|);
    }
  }

  lemma Distribute(n: nat, k: nat)
    ensures n * k + k == (n + 1) * k
  {
  }

  lemma {:induction false} PropagatedCount(entries: seq<Entry>, p: Propagation)
    ensures |VolumesOf(Propagated(entries, p))| == VolumeCount(entries, p)
    ensures |MountsOf(Propagated(entries, p))| == MountCount(entries, p)
  {
    if entries != [] {
      PropagatedCount(entries[1..], p);
      PropagatedCons(entries, p);
      RepeatedCount(entries[0], p(entries[0]));
      OfConcat(Repeated(entries[0], p(entries[0])), Propagated(entries[1..], p));
    }
  }

  lemma {:induction false} PropagatedIff(entries: seq<Entry>, p: Propagation, e: Entry)
    ensures e in Propagated(entries, p) <==> e in entries && p(e) > 0
  {
    if entries != [] {
      PropagatedIff(entries[1..], p, e);
      PropagatedCons(entries, p);
      RepeatedCount(entries[0], p(entries[0]));
      if e in Repeated(entries[0], p(entries[0])) {
        RepeatedIs(entries[0], p(entries[0]), e);
      }
      assert e in entries <==> e == entries[0] || e in entries[1..];
      hide Propagated, Repeated, VolumesOf, MountsOf;
    }
  }

  lemma {:induction false} RepeatedIs(x: Entry, n: nat, e: Entry)
    requires e in Repeated(x, n)
    ensures e == x && n > 0
  {
    if e in Repeated(x, n - 1) {
      RepeatedIs(x, n - 1, e);
    }
  }

  lemma {:induction false} OnceIsKept(entries: seq<Entry>, p: Propagation)
    requires forall e | e in entries :: p(e) <= 1
    ensures Propagated(entries, p) == Kept(entries, p)
    ensures (forall e | e in entries :: p(e) == 1) ==> Kept(entries, p) == entries
  {
    if entries != [] {
      OnceIsKept(entries[1..], p);
      PropagatedCons(entries, p);
      assert p(entries[0]) <= 1;
      RepeatedCount(entries[0], p(entries[0]));
    }
  }

  lemma {:induction false} OfIsAll(entries: seq<Entry>)
    ensures VolumesOf(entries) == AllVolumes(entries) && MountsOf(entries) == AllMounts(entries)
  {
    if entries != [] {
      var e, rest := entries[0], entries[1..];
      OfIsAll(rest);
      assert entries == [e] + rest && [e][..0] == [];
      assert VolumesOf([e]) == [] + e.volumes && MountsOf([e]) == [] + e.mounts;
      OfConcat([e], rest);
    }
  }

  lemma {:induction false} AllIff(entries: seq<Entry>)
    ensures forall v :: v in AllVolumes(entries) <==> exists e :: e in entries && v in e.volumes
    ensures forall m :: m in AllMounts(entries) <==> exists e :: e in entries && m in e.mounts
  {
    if entries != [] {
      AllIff(entries[1..]);
      assert entries == [entries[0]] + entries[1..];
    }
  }

  lemma SelectedIff(extra: seq<ExtraMounts>, p: Propagation, e: Entry)
    ensures e in Selected(extra, p) <==> e in Listed(extra) && p(e) > 0
  {
    SelectedIsPropagated(extra, p);
    PropagatedIff(Listed(extra), p, e);
  }

  lemma SelectedOnce(extra: seq<ExtraMounts>, p: Propagation)
    ensures (forall e | e in Listed(extra) :: p(e) <= 1) ==> Selected(extra, p) == Kept(Listed(extra), p)
    ensures (forall e | e in Listed(extra) :: p(e) == 1) ==> Selected(extra, p) == Listed(extra)
  {
    SelectedIsPropagated(extra, p);
    if forall e | e in Listed(extra) :: p(e) <= 1 {
      OnceIsKept(Listed(extra), p);
    }
  }

  /** Filter-then-flatten delivers. */
  lemma VolumesAreSelected(base: seq<Volume>, extra: seq<ExtraMounts>, p: Propagation)
    ensures VolumesArrive(base, base + VolumesOf(Selected(extra, p)), extra, p)
  {
    hide Selected, Propagated, Listed, Kept, AllVolumes, VolumesOf;
    var selected := Selected(extra, p);
    OfIsAll(selected);
    AllIff(selected);
    SelectedOnce(extra, p);
    assert |VolumesOf(selected)| == VolumeCount(Listed(extra), p) by {
      SelectedIsPropagated(extra, p);
      PropagatedCount(Listed(extra), p);
    }
    var volumes := base + VolumesOf(selected);
    assert volumes[|base|..] == VolumesOf(selected);
    forall x, e, v | x in extra && e in x.entries && v in e.volumes && p(e) > 0 ensures v in volumes {
      ListedIff(extra, e);
      SelectedIff(extra, p, e);
    }
    forall v | v in VolumesOf(selected) ensures exists e :: e in Listed(extra) && p(e) > 0 && v in e.volumes {
      var e :| e in selected && v in e.volumes;
      SelectedIff(extra, p, e);
    }
  }

  lemma MountsAreSelected(base: seq<Mount>, extra: seq<ExtraMounts>, p: Propagation)
    ensures MountsArrive(base, base + MountsOf(Selected(extra, p)), extra, p)
  {
    hide Selected, Propagated, Listed, Kept, AllMounts, MountsOf;
    var selected := Selected(extra, p);
    OfIsAll(selected);
    AllIff(selected);
    SelectedOnce(extra, p);
    assert |MountsOf(selected)| == MountCount(Listed(extra), p) by {
      SelectedIsPropagated(extra, p);
      PropagatedCount(Listed(extra), p);
    }
    var mounts := base + MountsOf(selected);
    assert mounts[|base|..] == MountsOf(selected);
    forall x, e, m | x in extra && e in x.entries && m in e.mounts && p(e) > 0 ensures m in mounts {
      ListedIff(extra, e);
      SelectedIff(extra, p, e);
    }
    forall m | m in MountsOf(selected) ensures exists e :: e in Listed(extra) && p(e) > 0 && m in e.mounts {
      var e :| e in selected && m in e.mounts;
      SelectedIff(extra, p, e);
    }
  }

  // ---------------------------------------------------------------- the loops

  lemma OneMoreList(extra: seq<ExtraMounts>, i: nat, p: Propagation)
    requires i < |extra|
    ensures var done, now := Selected(extra[..i], p), Propagated(extra[i].entries, p);
            && VolumesOf(Selected(extra[..i + 1], p)) == VolumesOf(done) + VolumesOf(now)
            && MountsOf(Selected(extra[..i + 1], p)) == MountsOf(done) + MountsOf(now)
  {
    assert extra[..i + 1][..i] == extra[..i];
    OfConcat(Selected(extra[..i], p), Propagated(extra[i].entries, p));
  }

  /** `Propagate` of one list of extra mounts. */
  method Propagate(e: ExtraMounts, p: Propagation) returns (vl: seq<Entry>)
    ensures vl == Propagated(e.entries, p)
  {
    vl := [];
    var i := 0;
    while i < |e.entries|
      invariant i <= |e.entries| && vl == Propagated(e.entries[..i], p)
    {
      vl := vl + Repeated(e.entries[i], p(e.entries[i]));
      assert e.entries[..i + 1][..i] == e.entries[..i];
      i := i + 1;
    }
    assert e.entries[..i] == e.entries;
  }

  method GetVolumes(parentName: string, name: string, extraVol: seq<ExtraMounts>, p: Propagation)
    returns (volumes: seq<Volume>)
    ensures volumes == [Volume("config-data-custom", name + "-config-data"),
                        Volume("config-data", parentName + "-config-data")]
                       + VolumesOf(Selected(extraVol, p))
    ensures VolumesArrive([Volume("config-data-custom", name + "-config-data"),
                           Volume("config-data", parentName + "-config-data")], volumes, extraVol, p)
  {
    volumes := AppendVolumes([Volume("config-data-custom", name + "-config-data"),
                              Volume("config-data", parentName + "-config-data")], extraVol, p);
    VolumesAreSelected([Volume("config-data-custom", name + "-config-data"),
                        Volume("config-data", parentName + "-config-data")], extraVol, p);
  }

  method AppendVolumes(base: seq<Volume>, extraVol: seq<ExtraMounts>, p: Propagation) returns (volumes: seq<Volume>)
    ensures volumes == base + VolumesOf(Selected(extraVol, p))
  {
    volumes := base;
    var i := 0;
    while i < |extraVol|
      invariant i <= |extraVol| && volumes == base + VolumesOf(Selected(extraVol[..i], p))
    {
      hide Selected, Propagated, VolumesOf;
      var vols := Propagate(extraVol[i], p);
      var more := EntryVolumes(vols);
      OneMoreList(extraVol, i, p);
      ConcatIsAssociative(base, VolumesOf(Selected(extraVol[..i], p)), more);
      volumes := volumes + more;
      i := i + 1;
    }
    assert extraVol[..i] == extraVol;
  }

  /** The two inner loops: every volume of every propagated entry. */
  method EntryVolumes(vols: seq<Entry>) returns (volumes: seq<Volume>)
    ensures volumes == VolumesOf(vols)
  {
    volumes := [];
    var i := 0;
    while i < |vols|
      invariant i <= |vols| && volumes == VolumesOf(vols[..i])
    {
      ghost var before := volumes;
      var j := 0;
      while j < |vols[i].volumes|
        invariant j <= |vols[i].volumes| && volumes == before + vols[i].volumes[..j]
      {
        volumes := volumes + [vols[i].volumes[j]];
        j := j + 1;
      }
      assert vols[..i + 1][..i] == vols[..i] && vols[i].volumes[..j] == vols[i].volumes;
      i := i + 1;
    }
    assert vols[..i] == vols;
  }

  /** The loops `GetVolumeMounts` and `getDBSyncVolumeMounts` share. */
  method AppendMounts(base: seq<Mount>, extraVol: seq<ExtraMounts>, p: Propagation) returns (vm: seq<Mount>)
    ensures vm == base + MountsOf(Selected(extraVol, p))
  {
    vm := base;
    var i := 0;
    while i < |extraVol|
      invariant i <= |extraVol| && vm == base + MountsOf(Selected(extraVol[..i], p))
    {
      hide Selected, Propagated, MountsOf;
      var vols := Propagate(extraVol[i], p);
      var more := EntryMounts(vols);
      OneMoreList(extraVol, i, p);
      ConcatIsAssociative(base, MountsOf(Selected(extraVol[..i], p)), more);
      vm := vm + more;
      i := i + 1;
    }
    assert extraVol[..i] == extraVol;
  }

  method EntryMounts(vols: seq<Entry>) returns (vm: seq<Mount>)
    ensures vm == MountsOf(vols)
  {
    vm := [];
    var j := 0;
    while j < |vols|
      invariant j <= |vols| && vm == MountsOf(vols[..j])
    {
      vm := vm + vols[j].mounts;
      assert vols[..j + 1][..j] == vols[..j];
      j := j + 1;
    }
    assert vols[..j] == vols;
  }

  method GetVolumeMounts(extraVol: seq<ExtraMounts>, p: Propagation) returns (vm: seq<Mount>)
    ensures vm == [Mount("config-data-custom", "/etc/heat/heat.conf.d", "", true),
                   Mount("config-data", "/etc/my.cnf", "my.cnf", true)]
                  + MountsOf(Selected(extraVol, p))
    ensures MountsArrive([Mount("config-data-custom", "/etc/heat/heat.conf.d", "", true),
                          Mount("config-data", "/etc/my.cnf", "my.cnf", true)], vm, extraVol, p)
  {
    vm := [Mount("config-data-custom", "/etc/heat/heat.conf.d", "", true),
           Mount("config-data", "/etc/my.cnf", "my.cnf", true)];
    MountsAreSelected(vm, extraVol, p);
    vm := AppendMounts(vm, extraVol, p);
  }

  /** The DB-sync job mounts the parent's configuration only. */
  method GetDBSyncVolumeMounts(extraVol: seq<ExtraMounts>, p: Propagation) returns (volumeMounts: seq<Mount>)
    ensures volumeMounts == [Mount("config-data", "/etc/heat/heat.conf.d/00-default.conf", "00-default.conf", true),
                             Mount("config-data", "/etc/heat/heat.conf.d/01-custom.conf", "01-custom.conf", false),
                             Mount("config-data", "/etc/my.cnf", "my.cnf", true)]
                            + MountsOf(Selected(extraVol, p))
    ensures MountsArrive([Mount("config-data", "/etc/heat/heat.conf.d/00-default.conf", "00-default.conf", true),
                          Mount("config-data", "/etc/heat/heat.conf.d/01-custom.conf", "01-custom.conf", false),
                          Mount("config-data", "/etc/my.cnf", "my.cnf", true)], volumeMounts, extraVol, p)
  {
    var base := [Mount("config-data", "/etc/heat/heat.conf.d/00-default.conf", "00-default.conf", true),
                 Mount("config-data", "/etc/heat/heat.conf.d/01-custom.conf", "01-custom.conf", false),
                 Mount("config-data", "/etc/my.cnf", "my.cnf", true)];
    volumeMounts := AppendMounts(base, extraVol, p);
    MountsAreSelected(base, extraVol, p);
  }

  // ---------------------------------------------------------------- the HeatAPI template

  /** A volume and the mounts of it, as the libraries create them for certificates and secrets. */
  datatype Piece = Piece(volume: Volume, mounts: seq<Mount>)

  predicate OwnMounts(p: Piece) {
    forall m | m in p.mounts :: m.name == p.volume.name
  }

  /** An endpoint without TLS, with it, or with a configuration that cannot be used. */
  datatype Endpoint = Plain | Secured(piece: Piece) | Unusable

  datatype Instance = Instance(
    name: string,
    extraMounts: seq<ExtraMounts>,
    customSecrets: seq<Piece>,
    caBundle: Option<Piece>,
    memcachedTls: Option<Piece>,
    internal: Endpoint,
    public: Endpoint)

  predicate PiecesOwnMounts(i: Instance) {
    && (forall p | p in i.customSecrets :: OwnMounts(p))
    && (i.caBundle.Some? ==> OwnMounts(i.caBundle.value))
    && (i.memcachedTls.Some? ==> OwnMounts(i.memcachedTls.value))
    && (i.internal.Secured? ==> OwnMounts(i.internal.piece))
    && (i.public.Secured? ==> OwnMounts(i.public.piece))
  }

  predicate Declared(name: string, volumes: seq<Volume>) {
    exists v | v in volumes :: v.name == name
  }

  /** Every mount names a declared volume. */
  predicate ClosedOver(mounts: seq<Mount>, volumes: seq<Volume>) {
    forall m | m in mounts :: Declared(m.name, volumes)
  }

  function PieceVolumes(ps: seq<Piece>): seq<Volume> {
    if ps == [] then [] else [ps[0].volume] + PieceVolumes(ps[1..])
  }

  function PieceMounts(ps: seq<Piece>): seq<Mount> {
    if ps == [] then [] else ps[0].mounts + PieceMounts(ps[1..])
  }

  function FromOption(o: Option<Piece>): seq<Piece> {
    match o
    case None => []
    case Some(p) => [p]
  }

  function FromEndpoint(e: Endpoint): seq<Piece> {
    if e.Secured? then [e.piece] else []
  }

  /** What `formatTLS` adds: CA bundle, memcached, internal, public. */
  function TlsPieces(i: Instance): seq<Piece> {
    FromOption(i.caBundle) + FromOption(i.memcachedTls) + FromEndpoint(i.internal) + FromEndpoint(i.public)
  }

  lemma {:induction false} PiecesConcat(a: seq<Piece>, b: seq<Piece>)
    ensures PieceVolumes(a + b) == PieceVolumes(a) + PieceVolumes(b)
            && PieceMounts(a + b) == PieceMounts(a) + PieceMounts(b)
  {
    if a == [] {
      assert a + b == b;
    } else {
      assert (a + b)[0] == a[0] && (a + b)[1..] == a[1..] + b;
      PiecesConcat(a[1..], b);
      ConcatIsAssociative([a[0].volume], PieceVolumes(a[1..]), PieceVolumes(b));
      ConcatIsAssociative(a[0].mounts, PieceMounts(a[1..]), PieceMounts(b));
    }
  }

  lemma {:induction false} PiecesAreClosed(ps: seq<Piece>)
    requires forall p | p in ps :: OwnMounts(p)
    ensures ClosedOver(PieceMounts(ps), PieceVolumes(ps))
  {
    if ps != [] {
      PiecesAreClosed(ps[1..]);
      forall m | m in PieceMounts(ps) ensures Declared(m.name, PieceVolumes(ps)) {
        if m in ps[0].mounts {
          assert OwnMounts(ps[0]) && ps[0].volume in PieceVolumes(ps);
        } else {
          var v :| v in PieceVolumes(ps[1..]) && v.name == m.name;
          assert v in PieceVolumes(ps);
        }
      }
    }
  }

  /** CA bundle and memcached, each if there is one. */
  method AddCertificates(i: Instance, volumes: seq<Volume>, volumeMounts: seq<Mount>)
    returns (vs: seq<Volume>, ms: seq<Mount>)
    ensures var added := FromOption(i.caBundle) + FromOption(i.memcachedTls);
            vs == volumes + PieceVolumes(added) && ms == volumeMounts + PieceMounts(added)
  {
    vs, ms := volumes, volumeMounts;
    if i.caBundle.Some? {
      vs, ms := vs + [i.caBundle.value.volume], ms + i.caBundle.value.mounts;
    }
    if i.memcachedTls.Some? {
      vs, ms := vs + [i.memcachedTls.value.volume], ms + i.memcachedTls.value.mounts;
    }
    PiecesConcat(FromOption(i.caBundle), FromOption(i.memcachedTls));
  }

  function EndpointPieces(endpoints: seq<Endpoint>): seq<Piece> {
    if endpoints == [] then []
    else EndpointPieces(endpoints[..|endpoints| - 1]) + FromEndpoint(endpoints[|endpoints| - 1])
  }

  method AddEndpoint(e: Endpoint, volumes: seq<Volume>, volumeMounts: seq<Mount>)
    returns (vs: seq<Volume>, ms: seq<Mount>)
    ensures vs == volumes + PieceVolumes(FromEndpoint(e)) && ms == volumeMounts + PieceMounts(FromEndpoint(e))
  {
    vs, ms := volumes, volumeMounts;
    if e.Secured? {
      vs, ms := vs + [e.piece.volume], ms + e.piece.mounts;
    }
  }

  lemma EndpointsSnoc(endpoints: seq<Endpoint>, k: nat, volumes: seq<Volume>, mounts: seq<Mount>)
    requires k < |endpoints|
    ensures var done, e := EndpointPieces(endpoints[..k]), FromEndpoint(endpoints[k]);
            var now := EndpointPieces(endpoints[..k + 1]);
            && volumes + PieceVolumes(now) == volumes + PieceVolumes(done) + PieceVolumes(e)
            && mounts + PieceMounts(now) == mounts + PieceMounts(done) + PieceMounts(e)
  {
    var done, e := EndpointPieces(endpoints[..k]), FromEndpoint(endpoints[k]);
    assert endpoints[..k + 1][..k] == endpoints[..k];
    assert EndpointPieces(endpoints[..k + 1]) == done + e;
    PiecesConcat(done, e);
    ConcatIsAssociative(volumes, PieceVolumes(done), PieceVolumes(e));
    ConcatIsAssociative(mounts, PieceMounts(done), PieceMounts(e));
  }

  /** The loop over the endpoints, which ends at the first it cannot use. */
  method AddEndpoints(endpoints: seq<Endpoint>, volumes: seq<Volume>, volumeMounts: seq<Mount>)
    returns (ok: bool, vs: seq<Volume>, ms: seq<Mount>)
    ensures ok <==> forall e | e in endpoints :: !e.Unusable?
    ensures ok ==>
              && vs == volumes + PieceVolumes(EndpointPieces(endpoints))
              && ms == volumeMounts + PieceMounts(EndpointPieces(endpoints))
  {
    ok, vs, ms := true, volumes, volumeMounts;
    var k := 0;
    while k < |endpoints|
      invariant 0 <= k <= |endpoints| && ok
      invariant forall e | e in endpoints[..k] :: !e.Unusable?
      invariant vs == volumes + PieceVolumes(EndpointPieces(endpoints[..k]))
      invariant ms == volumeMounts + PieceMounts(EndpointPieces(endpoints[..k]))
    {
      var e := endpoints[k];
      if e.Unusable? {
        ok := false;
        return;
      }
      vs, ms := AddEndpoint(e, vs, ms);
      EndpointsSnoc(endpoints, k, volumes, volumeMounts);
      k := k + 1;
    }
    assert endpoints[..k] == endpoints;
  }

  /** `formatTLS` appends to both lists, and fails on an endpoint it cannot use. */
  method FormatTLS(i: Instance, volumes: seq<Volume>, volumeMounts: seq<Mount>)
    returns (ok: bool, vs: seq<Volume>, ms: seq<Mount>)
    ensures ok <==> !i.internal.Unusable? && !i.public.Unusable?
    ensures ok ==> vs == volumes + PieceVolumes(TlsPieces(i)) && ms == volumeMounts + PieceMounts(TlsPieces(i))
    ensures ok ==>
              vs == volumes
                    + (if i.caBundle.Some? then [i.caBundle.value.volume] else [])
                    + (if i.memcachedTls.Some? then [i.memcachedTls.value.volume] else [])
                    + (if i.internal.Secured? then [i.internal.piece.volume] else [])
                    + (if i.public.Secured? then [i.public.piece.volume] else [])
    ensures ok ==>
              ms == volumeMounts
                    + (if i.caBundle.Some? then i.caBundle.value.mounts else [])
                    + (if i.memcachedTls.Some? then i.memcachedTls.value.mounts else [])
                    + (if i.internal.Secured? then i.internal.piece.mounts else [])
                    + (if i.public.Secured? then i.public.piece.mounts else [])
  {
    var endpoints := [i.internal, i.public];
    TlsPiecesAre(i);
    vs, ms := AddCertificates(i, volumes, volumeMounts);
    ok, vs, ms := AddEndpoints(endpoints, vs, ms);
    assert ok ==> !endpoints[0].Unusable? && !endpoints[1].Unusable?;
    ConcatIsAssociative(volumes, PieceVolumes(FromOption(i.caBundle) + FromOption(i.memcachedTls)),
                        PieceVolumes(EndpointPieces(endpoints)));
    ConcatIsAssociative(volumeMounts, PieceMounts(FromOption(i.caBundle) + FromOption(i.memcachedTls)),
                        PieceMounts(EndpointPieces(endpoints)));
    TlsVolumesAre(i, volumes);
    TlsMountsAre(i, volumeMounts);
  }

  lemma OnePiece(p: Piece)
    ensures PieceVolumes([p]) == [p.volume] && PieceMounts([p]) == p.mounts
  {
    assert [p][1..] == [];
    assert PieceVolumes([p]) == [p.volume] + [] && PieceMounts([p]) == p.mounts + [];
  }

  lemma TlsPiecesApart(i: Instance)
    ensures PieceVolumes(TlsPieces(i))
            == PieceVolumes(FromOption(i.caBundle)) + PieceVolumes(FromOption(i.memcachedTls))
               + PieceVolumes(FromEndpoint(i.internal)) + PieceVolumes(FromEndpoint(i.public))
    ensures PieceMounts(TlsPieces(i))
            == PieceMounts(FromOption(i.caBundle)) + PieceMounts(FromOption(i.memcachedTls))
               + PieceMounts(FromEndpoint(i.internal)) + PieceMounts(FromEndpoint(i.public))
  {
    var a, b, c, d := FromOption(i.caBundle), FromOption(i.memcachedTls), FromEndpoint(i.internal),
                      FromEndpoint(i.public);
    PiecesConcat(a, b);
    PiecesConcat(a + b, c);
    PiecesConcat(a + b + c, d);
  }

  lemma TlsVolumesAre(i: Instance, volumes: seq<Volume>)
    ensures volumes + PieceVolumes(TlsPieces(i))
            == volumes
               + (if i.caBundle.Some? then [i.caBundle.value.volume] else [])
               + (if i.memcachedTls.Some? then [i.memcachedTls.value.volume] else [])
               + (if i.internal.Secured? then [i.internal.piece.volume] else [])
               + (if i.public.Secured? then [i.public.piece.volume] else [])
  {
    TlsPiecesApart(i);
    hide TlsPieces;
    var a, b, c, d := PieceVolumes(FromOption(i.caBundle)), PieceVolumes(FromOption(i.memcachedTls)),
                      PieceVolumes(FromEndpoint(i.internal)), PieceVolumes(FromEndpoint(i.public));
    if i.caBundle.Some? {
      OnePiece(i.caBundle.value);
    }
    if i.memcachedTls.Some? {
      OnePiece(i.memcachedTls.value);
    }
    if i.internal.Secured? {
      OnePiece(i.internal.piece);
    }
    if i.public.Secured? {
      OnePiece(i.public.piece);
    }
    FourApart(volumes, a, b, c, d);
  }

  lemma TlsMountsAre(i: Instance, mounts: seq<Mount>)
    ensures mounts + PieceMounts(TlsPieces(i))
            == mounts
               + (if i.caBundle.Some? then i.caBundle.value.mounts else [])
               + (if i.memcachedTls.Some? then i.memcachedTls.value.mounts else [])
               + (if i.internal.Secured? then i.internal.piece.mounts else [])
               + (if i.public.Secured? then i.public.piece.mounts else [])
  {
    TlsPiecesApart(i);
    hide TlsPieces;
    var a, b, c, d := PieceMounts(FromOption(i.caBundle)), PieceMounts(FromOption(i.memcachedTls)),
                      PieceMounts(FromEndpoint(i.internal)), PieceMounts(FromEndpoint(i.public));
    if i.caBundle.Some? {
      OnePiece(i.caBundle.value);
    }
    if i.memcachedTls.Some? {
      OnePiece(i.memcachedTls.value);
    }
    if i.internal.Secured? {
      OnePiece(i.internal.piece);
    }
    if i.public.Secured? {
      OnePiece(i.public.piece);
    }
    FourApart(mounts, a, b, c, d);
  }

  lemma FourApart<T>(x: seq<T>, a: seq<T>, b: seq<T>, c: seq<T>, d: seq<T>)
    ensures x + (a + b + c + d) == x + a + b + c + d
  {
  }

  lemma TlsPiecesAre(i: Instance)
    ensures var certs := FromOption(i.caBundle) + FromOption(i.memcachedTls);
            var ends := EndpointPieces([i.internal, i.public]);
            && TlsPieces(i) == certs + ends
            && PieceVolumes(TlsPieces(i)) == PieceVolumes(certs) + PieceVolumes(ends)
            && PieceMounts(TlsPieces(i)) == PieceMounts(certs) + PieceMounts(ends)
  {
    assert [i.internal, i.public][..1] == [i.internal] && [i.internal][..0] == [];
    assert EndpointPieces([i.internal]) == [] + FromEndpoint(i.internal) by {
      assert EndpointPieces([]) == [];
    }
    var certs, ends := FromOption(i.caBundle) + FromOption(i.memcachedTls), EndpointPieces([i.internal, i.public]);
    assert ends == FromEndpoint(i.internal) + FromEndpoint(i.public);
    assert TlsPieces(i) == certs + ends;
    PiecesConcat(certs, ends);
  }

  function HttpdMounts(): seq<Mount> {
    [Mount("config-data", "/etc/httpd/conf/httpd.conf", "heat-api-httpd.conf", true),
     Mount("config-data", "/etc/httpd/conf.d/ssl.conf", "ssl.conf", true),
     Mount("config-data", "/opt/heat/heat-api.wsgi", "heat-api.wsgi", true),
     Mount("run-httpd", "/run/httpd", "", false)]
  }

  datatype Template = Template(volumes: seq<Volume>, mounts: seq<Mount>, configHash: string)

  /** The template in order: the service's own, the extra mounts, the custom secrets, httpd, TLS. */
  function Built(i: Instance, p: Propagation, configHash: string): Template {
    Template(
      [Volume("config-data-custom", i.name + "-config-data"), Volume("config-data", "heat-config-data")]
      + VolumesOf(Selected(i.extraMounts, p)) + PieceVolumes(i.customSecrets) + [Volume("run-httpd", "")]
      + PieceVolumes(TlsPieces(i)),
      [Mount("config-data-custom", "/etc/heat/heat.conf.d", "", true),
       Mount("config-data", "/etc/my.cnf", "my.cnf", true)]
      + MountsOf(Selected(i.extraMounts, p)) + PieceMounts(i.customSecrets) + HttpdMounts() + PieceMounts(TlsPieces(i)),
      configHash)
  }

  /** The volume and the mounts of a piece are there. */
  predicate Carries(t: Template, p: Piece) {
    p.volume in t.volumes && forall m | m in p.mounts :: m in t.mounts
  }

  /** The volumes and mounts of every propagated entry are there. */
  ghost predicate CarriesEntries(t: Template, extra: seq<ExtraMounts>, p: Propagation) {
    && (forall x, e, v | x in extra && e in x.entries && v in e.volumes && p(e) > 0 :: v in t.volumes)
    && (forall x, e, m | x in extra && e in x.entries && m in e.mounts && p(e) > 0 :: m in t.mounts)
  }

  predicate CarriesPieces(t: Template, i: Instance) {
    && (forall s | s in i.customSecrets :: Carries(t, s))
    && (i.caBundle.Some? ==> Carries(t, i.caBundle.value))
    && (i.memcachedTls.Some? ==> Carries(t, i.memcachedTls.value))
    && (i.internal.Secured? ==> Carries(t, i.internal.piece)) && (i.public.Secured? ==> Carries(t, i.public.piece))
  }

  predicate CarriesOwn(t: Template, name: string) {
    && Volume("config-data-custom", name + "-config-data") in t.volumes
    && Volume("config-data", "heat-config-data") in t.volumes && Volume("run-httpd", "") in t.volumes
    && Mount("config-data-custom", "/etc/heat/heat.conf.d", "", true) in t.mounts
    && Mount("config-data", "/etc/my.cnf", "my.cnf", true) in t.mounts
    && Mount("config-data", "/etc/httpd/conf/httpd.conf", "heat-api-httpd.conf", true) in t.mounts
    && Mount("config-data", "/etc/httpd/conf.d/ssl.conf", "ssl.conf", true) in t.mounts
    && Mount("config-data", "/opt/heat/heat-api.wsgi", "heat-api.wsgi", true) in t.mounts
    && Mount("run-httpd", "/run/httpd", "", false) in t.mounts
  }

  /** Everything the instance asks for is in the template. */
  ghost predicate Complete(t: Template, i: Instance, p: Propagation) {
    CarriesEntries(t, i.extraMounts, p) && CarriesPieces(t, i) && CarriesOwn(t, i.name)
  }

  function PieceMountCount(ps: seq<Piece>): nat {
    if ps == [] then 0 else |ps[0].mounts| + PieceMountCount(ps[1..])
  }

  function CountOption(o: Option<Piece>): (nat, nat) {
    if o.Some? then (1, |o.value.mounts|) else (0, 0)
  }

  function CountEndpoint(e: Endpoint): (nat, nat) {
    if e.Secured? then (1, |e.piece.mounts|) else (0, 0)
  }

  /** And nothing else, and nothing twice that is asked for once. */
  ghost predicate NothingElse(t: Template, i: Instance, p: Propagation) {
    var ca, memcached, internal, public := CountOption(i.caBundle), CountOption(i.memcachedTls),
                                           CountEndpoint(i.internal), CountEndpoint(i.public);
    && |t.volumes| == 2 + VolumeCount(Listed(i.extraMounts), p) + |i.customSecrets| + 1
                      + ca.0 + memcached.0 + internal.0 + public.0
    && |t.mounts| == 2 + MountCount(Listed(i.extraMounts), p) + PieceMountCount(i.customSecrets) + 4
                     + ca.1 + memcached.1 + internal.1 + public.1
  }

  lemma {:induction false} PiecesCarried(ps: seq<Piece>)
    ensures |PieceVolumes(ps)| == |ps| && |PieceMounts(ps)| == PieceMountCount(ps)
    ensures forall s | s in ps :: s.volume in PieceVolumes(ps) && forall m | m in s.mounts :: m in PieceMounts(ps)
  {
    if ps != [] {
      PiecesCarried(ps[1..]);
      assert ps == [ps[0]] + ps[1..];
    }
  }

  /** `Deployment`: no template at all if an endpoint's TLS cannot be used. */
  method Deployment(i: Instance, p: Propagation, configHash: string) returns (template: Option<Template>)
    ensures template.Some? <==> !i.internal.Unusable? && !i.public.Unusable?
    ensures template.Some? ==> template.value == Built(i, p, configHash)
    ensures template.Some? ==>
              Complete(template.value, i, p) && NothingElse(template.value, i, p)
              && template.value.configHash == configHash
  {
    hide Complete, NothingElse, VolumesArrive, MountsArrive, Selected, VolumesOf, MountsOf, PieceVolumes, PieceMounts,
         TlsPieces;
    assert "heat" + "-config-data" == "heat-config-data";
    var volumes := GetVolumes("heat", i.name, i.extraMounts, p);
    var volumeMounts := GetVolumeMounts(i.extraMounts, p);
    volumes := volumes + PieceVolumes(i.customSecrets);
    volumeMounts := volumeMounts + PieceMounts(i.customSecrets);
    volumes := volumes + [Volume("run-httpd", "")];
    volumeMounts := volumeMounts + HttpdMounts();
    var ok;
    ok, volumes, volumeMounts := FormatTLS(i, volumes, volumeMounts);
    template := if ok then Some(Template(volumes, volumeMounts, configHash)) else None;
    BuiltIsComplete(i, p, configHash);
    BuiltIsCounted(i, p, configHash);
  }

  lemma TlsCarried(i: Instance)
    ensures i.caBundle.Some? ==> i.caBundle.value in TlsPieces(i)
    ensures i.memcachedTls.Some? ==> i.memcachedTls.value in TlsPieces(i)
    ensures i.internal.Secured? ==> i.internal.piece in TlsPieces(i)
    ensures i.public.Secured? ==> i.public.piece in TlsPieces(i)
  {
  }

  lemma PartsAreThere(i: Instance, p: Propagation, configHash: string)
    ensures var t, selected := Built(i, p, configHash), Selected(i.extraMounts, p);
            && (forall v | v in VolumesOf(selected) :: v in t.volumes)
            && (forall m | m in MountsOf(selected) :: m in t.mounts)
            && (forall v | v in PieceVolumes(i.customSecrets) + PieceVolumes(TlsPieces(i)) :: v in t.volumes)
            && (forall m | m in PieceMounts(i.customSecrets) + PieceMounts(TlsPieces(i)) :: m in t.mounts)
  {
    hide PieceVolumes, PieceMounts, TlsPieces, Selected, VolumesOf, MountsOf;
  }

  lemma OwnPartsAreThere(i: Instance, p: Propagation, configHash: string)
    ensures CarriesOwn(Built(i, p, configHash), i.name)
  {
    hide PieceVolumes, PieceMounts, TlsPieces, Selected, VolumesOf, MountsOf;
    assert Volume("run-httpd", "") in [Volume("run-httpd", "")];
  }

  lemma BuiltIsComplete(i: Instance, p: Propagation, configHash: string)
    ensures Complete(Built(i, p, configHash), i, p)
  {
    var t, selected := Built(i, p, configHash), Selected(i.extraMounts, p);
    PartsAreThere(i, p, configHash);
    OwnPartsAreThere(i, p, configHash);
    PiecesCarried(i.customSecrets);
    PiecesCarried(TlsPieces(i));
    TlsCarried(i);
    hide Built, PieceVolumes, PieceMounts, TlsPieces, Selected, VolumesOf, MountsOf, CarriesOwn;
    forall x, e | x in i.extraMounts && e in x.entries && p(e) > 0 ensures e in selected {
      ListedIff(i.extraMounts, e);
      SelectedIff(i.extraMounts, p, e);
    }
    forall e | e in selected
      ensures (forall v | v in e.volumes :: v in t.volumes) && (forall m | m in e.mounts :: m in t.mounts)
    {
      SelectedEntries(selected, e);
    }
  }

  lemma BuiltIsCounted(i: Instance, p: Propagation, configHash: string)
    ensures NothingElse(Built(i, p, configHash), i, p)
  {
    SelectedIsPropagated(i.extraMounts, p);
    PropagatedCount(Listed(i.extraMounts), p);
    PiecesCarried(i.customSecrets);
    TlsVolumesAre(i, []);
    TlsMountsAre(i, []);
    hide PieceVolumes, PieceMounts, TlsPieces, Selected, VolumesOf, MountsOf;
  }

  // ---------------------------------------------------------------- closure

  lemma {:induction false} SelectedEntries(entries: seq<Entry>, e: Entry)
    requires e in entries
    ensures forall v | v in e.volumes :: v in VolumesOf(entries)
    ensures forall m | m in e.mounts :: m in MountsOf(entries)
  {
    var most, last := entries[..|entries| - 1], entries[|entries| - 1];
    if e != last {
      assert entries == most + [last];
      SelectedEntries(most, e);
    }
  }

  lemma {:induction false} MountOfSomeEntry(entries: seq<Entry>, m: Mount)
    requires m in MountsOf(entries)
    ensures exists e :: e in entries && m in e.mounts
  {
    var most, last := entries[..|entries| - 1], entries[|entries| - 1];
    if m in last.mounts {
      assert last in entries;
    } else {
      MountOfSomeEntry(most, m);
      var e :| e in most && m in e.mounts;
      assert e in entries;
    }
  }

  /** Closure, exactly: the template is closed if and only if every mount of every entry that
      reaches the service names a volume the template declares. */
  lemma {:induction false} ClosedIff(i: Instance, p: Propagation, configHash: string)
    requires PiecesOwnMounts(i)
    ensures var t := Built(i, p, configHash);
            ClosedOver(t.mounts, t.volumes)
            <==> forall e | e in Selected(i.extraMounts, p) :: ClosedOver(e.mounts, t.volumes)
  {
    var t, entries := Built(i, p, configHash), Selected(i.extraMounts, p);
    if ClosedOver(t.mounts, t.volumes) {
      forall e, m | e in entries && m in e.mounts ensures Declared(m.name, t.volumes) {
        SelectedEntries(entries, e);
        assert m in t.mounts;
      }
    }
    if forall e | e in entries :: ClosedOver(e.mounts, t.volumes) {
      forall m | m in t.mounts ensures Declared(m.name, t.volumes) {
        if m in MountsOf(entries) {
          MountOfSomeEntry(entries, m);
        } else {
          OwnMountsAreDeclared(i, p, configHash, m);
        }
      }
    }
  }

  lemma OwnMountsAreDeclared(i: Instance, p: Propagation, configHash: string, m: Mount)
    requires PiecesOwnMounts(i)
    requires var t := Built(i, p, configHash); m in t.mounts && m !in MountsOf(Selected(i.extraMounts, p))
    ensures Declared(m.name, Built(i, p, configHash).volumes)
  {
    var vs := Built(i, p, configHash).volumes;
    assert Volume("config-data-custom", i.name + "-config-data") in vs
           && Volume("config-data", "heat-config-data") in vs;
    assert Volume("run-httpd", "") in vs;
    PiecesAreClosed(i.customSecrets);
    TlsPiecesOwnMounts(i);
    PiecesAreClosed(TlsPieces(i));
    if m in PieceMounts(i.customSecrets) {
      var v :| v in PieceVolumes(i.customSecrets) && v.name == m.name;
      assert v in vs;
    } else if m in PieceMounts(TlsPieces(i)) {
      var v :| v in PieceVolumes(TlsPieces(i)) && v.name == m.name;
      assert v in vs;
    }
  }

  lemma TlsPiecesOwnMounts(i: Instance)
    requires PiecesOwnMounts(i)
    ensures forall p | p in TlsPieces(i) :: OwnMounts(p)
  {
  }

  /** In particular, when every entry's mounts name that entry's own volumes: the same filter
      selects both, so no entry's mounts arrive without its volumes. */
  lemma {:induction false} OwnVolumesSuffice(i: Instance, p: Propagation, configHash: string)
    requires PiecesOwnMounts(i)
    requires forall x, e | x in i.extraMounts && e in x.entries :: ClosedOver(e.mounts, e.volumes)
    ensures var t := Built(i, p, configHash); ClosedOver(t.mounts, t.volumes)
  {
    var t, entries := Built(i, p, configHash), Selected(i.extraMounts, p);
    forall e | e in entries ensures ClosedOver(e.mounts, t.volumes) {
      SelectedIff(i.extraMounts, p, e);
      ListedIff(i.extraMounts, e);
      SelectedEntries(entries, e);
      forall m | m in e.mounts ensures Declared(m.name, t.volumes) {
        var v :| v in e.volumes && v.name == m.name;
        assert v in t.volumes;
      }
    }
    ClosedIff(i, p, configHash);
  }
}
