/**
 * The vehicle manager (feu_tricolore/gestionnaire_voitures.py): four queues of
 * vehicle objects, spawning, the per-frame movement pass, collision detection
 * and the accident lifecycle. Every state-changing method is proved to leave
 * the queues' value snapshot `Vue()` equal to a function of the old one; the
 * read-only scans live in module Voies and the movement rule in Circulation.
 */
module GestionnaireVoitures {
  import opened Constantes
  import opened Options
  import opened Voiture
  import opened Voies
  import opened Circulation
  import Meteo
  import Feu

  // ---------------------------------------------------------------------------
  // Snapshots and identity-level sequence operations
  // ---------------------------------------------------------------------------

  /** The values of a queue of vehicle objects. */
  function Snap(q: seq<Voiture>): (r: seq<VueVoiture>)
    reads q
    ensures |r| == |q|
    ensures forall j :: 0 <= j < |q| ==> r[j] == q[j].Vue()
  {
    seq(|q|, j requires 0 <= j < |q| reads q => q[j].Vue())
  }

  /** The values of four queues of vehicle objects. */
  function VueDe(p: ParDirection<seq<Voiture>>): (f: Files)
    reads p.n, p.s, p.e, p.o
    ensures forall d :: f.File(d) == Snap(p.Get(d))
  {
    Files(Snap(p.n), Snap(p.s), Snap(p.e), Snap(p.o))
  }

  predicate Distincts(q: seq<Voiture>)
  {
    forall i, j :: 0 <= i < j < |q| ==> q[i] != q[j]
  }

  lemma DistinctsQueue(q: seq<Voiture>)
    requires q != [] && Distincts(q)
    ensures Distincts(q[1..]) && q[0] !in q[1..]
  {
    forall k | 0 <= k < |q[1..]|
      ensures q[1..][k] != q[0]
    {
      assert q[1..][k] == q[k + 1];
    }
  }

  lemma DistinctsCons(x: Voiture, r: seq<Voiture>)
    requires Distincts(r) && x !in r
    ensures Distincts([x] + r)
  {
    var t := [x] + r;
    forall i, j | 0 <= i < j < |t|
      ensures t[i] != t[j]
    {
      assert t[j] == r[j - 1];
      if i > 0 {
        assert t[i] == r[i - 1];
      }
    }
  }

  ghost predicate DeDirection(q: seq<Voiture>, d: Dir)
  {
    forall k :: 0 <= k < |q| ==> q[k].direction == d
  }

  /**
   * The four queues are well formed: each vehicle object sits in at most one
   * queue, at most once, and in the queue of its own direction.
   */
  ghost predicate FilesBienFormees(p: ParDirection<seq<Voiture>>)
  {
    Distincts(p.n) && Distincts(p.s) && Distincts(p.e) && Distincts(p.o)
    && DeDirection(p.n, N) && DeDirection(p.s, S) && DeDirection(p.e, E) && DeDirection(p.o, O)
  }

  /** A queue drawn from the vehicles of a queue of direction `d` is of direction `d` too. */
  lemma DeDirectionExtraite(q: seq<Voiture>, r: seq<Voiture>, d: Dir)
    requires DeDirection(q, d) && forall w :: w in r ==> w in q
    ensures DeDirection(r, d)
  {
    forall k | 0 <= k < |r|
      ensures r[k].direction == d
    {
      assert r[k] in q;
    }
  }

  lemma Appartenance(p: ParDirection<seq<Voiture>>, d: Dir, v: Voiture)
    requires FilesBienFormees(p) && v in p.Get(d)
    ensures v.direction == d
    ensures forall d' :: d' != d ==> v !in p.Get(d')
  {
  }

  lemma DistinctesParFile(p: ParDirection<seq<Voiture>>, d: Dir)
    requires FilesBienFormees(p)
    ensures Distincts(p.Get(d))
  {
  }

  /**
   * Replacing one queue by a duplicate-free queue of that direction, drawn from
   * its old vehicles and from vehicles in no queue, keeps the queues well formed.
   */
  lemma Remplacement(p: ParDirection<seq<Voiture>>, d: Dir, q: seq<Voiture>)
    requires FilesBienFormees(p)
    requires Distincts(q) && DeDirection(q, d)
    requires forall v :: v in q ==> v in p.Get(d) || (v !in p.n && v !in p.s && v !in p.e && v !in p.o)
    ensures FilesBienFormees(p.Avec(d, q))
  {
  }

  /** `liste.remove(v)` guarded by `v in liste`: drops the first occurrence of `v`, if any. */
  function Retirer(q: seq<Voiture>, v: Voiture): (r: seq<Voiture>)
    ensures v !in q ==> r == q
    ensures forall w :: w in r ==> w in q
  {
    if q == [] then []
    else if q[0] == v then q[1..]
    else [q[0]] + Retirer(q[1..], v)
  }

  /** `remove` takes out exactly one occurrence of a present vehicle and nothing else. */
  lemma {:induction false} RetirerMultiensemble(q: seq<Voiture>, v: Voiture)
    ensures multiset(Retirer(q, v)) == multiset(q) - multiset{v}
    ensures v in q ==> |Retirer(q, v)| == |q| - 1
  {
    if q != [] {
      assert q == [q[0]] + q[1..];
      if q[0] != v {
        RetirerMultiensemble(q[1..], v);
      }
    }
  }

  /** In a queue without duplicates, `remove` leaves no trace of the vehicle. */
  lemma {:induction false} RetirerDistincts(q: seq<Voiture>, v: Voiture)
    requires Distincts(q)
    ensures Distincts(Retirer(q, v)) && v !in Retirer(q, v)
  {
    if q != [] {
      DistinctsQueue(q);
      if q[0] != v {
        RetirerDistincts(q[1..], v);
        DistinctsCons(q[0], Retirer(q[1..], v));
      }
    }
  }

  /** The exit filter on objects: the vehicles of `q` still on screen, order kept. */
  function GarderVoitures(q: seq<Voiture>, d: Dir): (r: seq<Voiture>)
    reads q
    ensures forall w :: w in r ==> w in q
  {
    if q == [] then []
    else if Reste(q[0].Vue(), d) then [q[0]] + GarderVoitures(q[1..], d)
    else GarderVoitures(q[1..], d)
  }

  /** The object filter keeps exactly the vehicles the value filter keeps. */
  lemma {:induction false} GarderVoituresVue(q: seq<Voiture>, d: Dir)
    ensures Snap(GarderVoitures(q, d)) == Garder(Snap(q), d)
  {
    if q != [] {
      GarderVoituresVue(q[1..], d);
      SnapTete(q);
      GarderTete(Snap(q), d);
      if Reste(q[0].Vue(), d) {
        SnapCons(q[0], GarderVoitures(q[1..], d));
      }
    }
  }

  /** The values of a non-empty queue: its head's, then its tail's. */
  lemma SnapTete(q: seq<Voiture>)
    requires q != []
    ensures Snap(q)[0] == q[0].Vue() && Snap(q)[1..] == Snap(q[1..])
  {
    assert Snap(q)[1..] == Snap(q[1..]);
  }

  /** The values of a vehicle put in front of a queue. */
  lemma SnapCons(v: Voiture, q: seq<Voiture>)
    ensures Snap([v] + q) == [v.Vue()] + Snap(q)
  {
  }

  /** One step of the value filter on a non-empty queue. */
  lemma GarderTete(q: seq<VueVoiture>, d: Dir)
    requires q != []
    ensures Garder(q, d) == (if Reste(q[0], d) then [q[0]] + Garder(q[1..], d) else Garder(q[1..], d))
  {
  }

  lemma {:induction false} GarderDistincts(q: seq<Voiture>, d: Dir)
    requires Distincts(q)
    ensures Distincts(GarderVoitures(q, d))
  {
    if q != [] {
      DistinctsQueue(q);
      GarderDistincts(q[1..], d);
      if Reste(q[0].Vue(), d) {
        DistinctsCons(q[0], GarderVoitures(q[1..], d));
      }
    }
  }

  /** The four queues with `v` removed from whichever holds it. */
  function RetirerDe(p: ParDirection<seq<Voiture>>, v: Voiture): (r: ParDirection<seq<Voiture>>)
    ensures forall d :: r.Get(d) == Retirer(p.Get(d), v)
  {
    ParDirection(Retirer(p.n, v), Retirer(p.s, v), Retirer(p.e, v), Retirer(p.o, v))
  }

  /** Removing one vehicle from every queue keeps the queues well formed. */
  lemma RetraitBienForme(p: ParDirection<seq<Voiture>>, v: Voiture)
    requires FilesBienFormees(p)
    ensures FilesBienFormees(RetirerDe(p, v))
  {
    RetirerDistincts(p.n, v);
    RetirerDistincts(p.s, v);
    RetirerDistincts(p.e, v);
    RetirerDistincts(p.o, v);
    DeDirectionExtraite(p.n, Retirer(p.n, v), N);
    DeDirectionExtraite(p.s, Retirer(p.s, v), S);
    DeDirectionExtraite(p.e, Retirer(p.e, v), E);
    DeDirectionExtraite(p.o, Retirer(p.o, v), O);
  }

  /** What the four heads show the vehicles: colour green and pedestrian phase. */
  function SignauxDe(fn: Feu.EtatFeu, fs: Feu.EtatFeu, fe: Feu.EtatFeu, fo: Feu.EtatFeu): (r: Signaux)
    ensures (r.vertN <==> fn.couleur == Feu.Vert) && (r.vertS <==> fs.couleur == Feu.Vert)
    ensures (r.vertE <==> fe.couleur == Feu.Vert) && (r.vertO <==> fo.couleur == Feu.Vert)
    ensures (r.pietonN <==> fn.pietonVert) && (r.pietonS <==> fs.pietonVert)
    ensures (r.pietonE <==> fe.pietonVert) && (r.pietonO <==> fo.pietonVert)
  {
    Signaux(fn.couleur == Feu.Vert, fs.couleur == Feu.Vert, fe.couleur == Feu.Vert, fo.couleur == Feu.Vert,
            fn.pietonVert, fs.pietonVert, fe.pietonVert, fo.pietonVert)
  }

  // ---------------------------------------------------------------------------
  // Spawning, as values
  // ---------------------------------------------------------------------------

  /** The spawn point of each direction (`SPAWN_*`). */
  function PointApparition(d: Dir): (r: VueVoiture)
    ensures r.direction == d && !r.estAmbulance
    ensures DistanceAuCentre(r, d) >= 430.0
  {
    match d
    case N => VueVoiture(SPAWN_NORD_X, SPAWN_NORD_Y, N, false)
    case S => VueVoiture(SPAWN_SUD_X, SPAWN_SUD_Y, S, false)
    case E => VueVoiture(SPAWN_EST_X, SPAWN_EST_Y, E, false)
    case O => VueVoiture(SPAWN_OUEST_X, SPAWN_OUEST_Y, O, false)
  }

  /**
   * One direction of `spawn_voitures` once the interval has elapsed: a vehicle
   * is appended at the spawn point when the queue is shorter than the traffic
   * level and the draw exceeds `PROBABILITE_SPAWN`.
   */
  function Apparition(q: seq<VueVoiture>, d: Dir, niveau: int, alea: real): (r: seq<VueVoiture>)
    ensures |r| == |q| + 1 <==> |q| < niveau && alea > PROBABILITE_SPAWN
    ensures |r| != |q| + 1 ==> r == q
    ensures r[..|q|] == q
    ensures |r| == |q| + 1 ==> r[|q|] == PointApparition(d)
    ensures |r| <= if |q| < niveau then niveau else |q|
  {
    if |q| < niveau && alea > PROBABILITE_SPAWN then q + [PointApparition(d)] else q
  }

  function Apparitions(f: Files, niveaux: ParDirection<int>, aleas: ParDirection<real>): (r: Files)
    ensures forall d :: r.File(d) == Apparition(f.File(d), d, niveaux.Get(d), aleas.Get(d))
  {
    Files(Apparition(f.nord, N, niveaux.n, aleas.n), Apparition(f.sud, S, niveaux.s, aleas.s),
          Apparition(f.est, E, niveaux.e, aleas.e), Apparition(f.ouest, O, niveaux.o, aleas.o))
  }

  /** Draws of `spawn_voitures_initial` are within the `randint` bounds of the source. */
  function PositionsInitialesValides(p: ParDirection<int>): (r: bool)
    ensures r ==> 0 <= p.n && p.s as real <= HAUTEUR && p.e as real <= LARGEUR && 0 <= p.o
    ensures r ==> p.n as real < ZONE_ARRET_NORD_MIN && p.s as real > ZONE_ARRET_SUD_MAX
    ensures r ==> p.e as real > ZONE_ARRET_EST_MAX && p.o as real < ZONE_ARRET_OUEST_MIN
  {
    50 <= p.n <= 200
    && (HAUTEUR - 200.0) <= p.s as real <= (HAUTEUR - 50.0)
    && (LARGEUR - 800.0) <= p.e as real <= (LARGEUR - 650.0)
    && 50 <= p.o <= 200
  }

  /** The initial vehicle of direction `d` placed at the drawn coordinate `p`. */
  function VoitureInitiale(d: Dir, p: int): (r: VueVoiture)
    ensures r.direction == d && !r.estAmbulance
  {
    match d
    case N => VueVoiture(SPAWN_NORD_X, p as real, N, false)
    case S => VueVoiture(SPAWN_SUD_X, p as real, S, false)
    case E => VueVoiture(p as real, SPAWN_EST_Y, E, false)
    case O => VueVoiture(p as real, SPAWN_OUEST_Y, O, false)
  }

  function Initiales(ps: seq<ParDirection<int>>, d: Dir): (r: seq<VueVoiture>)
    ensures |r| == |ps|
    ensures forall k :: 0 <= k < |ps| ==> r[k] == VoitureInitiale(d, ps[k].Get(d))
  {
    seq(|ps|, k requires 0 <= k < |ps| => VoitureInitiale(d, ps[k].Get(d)))
  }

  /**
   * Every vehicle placed at start-up is at least 250 px short of the centre:
   * upstream of its stop band and of the central zone.
   */
  lemma InitialesEnAmont(p: ParDirection<int>, d: Dir)
    requires PositionsInitialesValides(p)
    ensures DistanceAuCentre(VoitureInitiale(d, p.Get(d)), d) >= 250.0
    ensures !DansZoneArret(VoitureInitiale(d, p.Get(d)), d)
    ensures !DansZoneCentrale(VoitureInitiale(d, p.Get(d)), d)
  {
  }

  /** The accident record (`accident_actif`): midpoint, the two directions, countdown and vehicles. */
  datatype Accident = Accident(posX: real, posY: real, dir1: Dir, dir2: Dir, duree: int,
                               voiture1: Voiture, voiture2: Voiture)

  /** Python's `//` on two coordinates: the floor of their midpoint. */
  function Milieu(a: real, b: real): (r: real)
    ensures r <= (a + b) / 2.0 < r + 1.0
    ensures r == r.Floor as real
  {
    ((a + b) / 2.0).Floor as real
  }

  /** The spawn step's four appends, one queue after the other, make `Apparitions`. */
  lemma ApparitionsEnChaine(f0: Files, niveaux: ParDirection<int>, aleas: ParDirection<real>)
    ensures var f1 := f0.AvecFile(N, Apparition(f0.File(N), N, niveaux.n, aleas.n));
            var f2 := f1.AvecFile(S, Apparition(f1.File(S), S, niveaux.s, aleas.s));
            var f3 := f2.AvecFile(E, Apparition(f2.File(E), E, niveaux.e, aleas.e));
            var f4 := f3.AvecFile(O, Apparition(f3.File(O), O, niveaux.o, aleas.o));
            f4 == Apparitions(f0, niveaux, aleas)
  {
  }

  /** The start-up vehicles of the records `ps`, appended to each queue of `f`. */
  function AvecInitiales(f: Files, ps: seq<ParDirection<int>>): (r: Files)
    ensures forall d :: r.File(d) == f.File(d) + Initiales(ps, d)
  {
    Files(f.nord + Initiales(ps, N), f.sud + Initiales(ps, S), f.est + Initiales(ps, E), f.ouest + Initiales(ps, O))
  }

  lemma InitialesEnChaine(f0: Files, ps: seq<ParDirection<int>>, k: nat)
    requires k < |ps|
    ensures var f := AvecInitiales(f0, ps[..k]);
            var p := ps[k];
            var f1 := f.AvecFile(N, f.File(N) + [VoitureInitiale(N, p.n)]);
            var f2 := f1.AvecFile(S, f1.File(S) + [VoitureInitiale(S, p.s)]);
            var f3 := f2.AvecFile(E, f2.File(E) + [VoitureInitiale(E, p.e)]);
            var f4 := f3.AvecFile(O, f3.File(O) + [VoitureInitiale(O, p.o)]);
            f4 == AvecInitiales(f0, ps[..k + 1])
  {
    forall d ensures Initiales(ps[..k + 1], d) == Initiales(ps[..k], d) + [VoitureInitiale(d, ps[k].Get(d))] {
    }
    assert Initiales(ps[..k + 1], N) == Initiales(ps[..k], N) + [VoitureInitiale(N, ps[k].n)];
    assert Initiales(ps[..k + 1], S) == Initiales(ps[..k], S) + [VoitureInitiale(S, ps[k].s)];
    assert Initiales(ps[..k + 1], E) == Initiales(ps[..k], E) + [VoitureInitiale(E, ps[k].e)];
    assert Initiales(ps[..k + 1], O) == Initiales(ps[..k], O) + [VoitureInitiale(O, ps[k].o)];
  }

  /**
   * The front-to-back pass over queue `d` of the queues `p`: each vehicle
   * decides on the current state, then moves; the result is `EtapesFile`.
   */
  method DeplacerFile(p: ParDirection<seq<Voiture>>, d: Dir, ctx: Contexte)
    requires FilesBienFormees(p)
    modifies p.Get(d)
    ensures VueDe(p) == EtapesFile(old(VueDe(p)), d, |p.Get(d)|, ctx)
  {
    ghost var f0 := VueDe(p);
    ParDirectionFormee(p);
    var n := |p.Get(d)|;
    for i := 0 to n
      invariant VueDe(p) == EtapesFile(f0, d, i, ctx)
    {
      DeplacerSuivante(p, d, i, ctx, f0);
    }
  }

  /** `FilesBienFormees` stated queue by queue. */
  lemma ParDirectionFormee(p: ParDirection<seq<Voiture>>)
    requires FilesBienFormees(p)
    ensures forall e :: Distincts(p.Get(e)) && DeDirection(p.Get(e), e)
  {
  }

  /** One iteration of `DeplacerFile`: after the first `i` steps, vehicle `i` takes its own. */
  method DeplacerSuivante(p: ParDirection<seq<Voiture>>, d: Dir, i: nat, ctx: Contexte, ghost f0: Files)
    requires forall e :: Distincts(p.Get(e)) && DeDirection(p.Get(e), e)
    requires i < |f0.File(d)|
    requires VueDe(p) == EtapesFile(f0, d, i, ctx)
    modifies p.Get(d)
    ensures VueDe(p) == EtapesFile(f0, d, i + 1, ctx)
  {
    assert FilesBienFormees(p) by {
      assert Distincts(p.Get(N)) && DeDirection(p.Get(N), N);
      assert Distincts(p.Get(S)) && DeDirection(p.Get(S), S);
      assert Distincts(p.Get(E)) && DeDirection(p.Get(E), E);
      assert Distincts(p.Get(O)) && DeDirection(p.Get(O), O);
    }
    DeplacerVoiture(p, d, i, ctx);
  }

  /** Vehicle `i` of queue `d` takes its decision on the current state and moves. */
  method DeplacerVoiture(p: ParDirection<seq<Voiture>>, d: Dir, i: nat, ctx: Contexte)
    requires FilesBienFormees(p)
    requires i < |p.Get(d)|
    modifies p.Get(d)[i]
    ensures VueDe(p) == EtapeVoiture(old(VueDe(p)), d, i, ctx)
  {
    var f := VueDe(p);
    var q := p.Get(d);
    var c := q[i];
    var ok := PeutAvancer(f, d, i, ctx);
    c.Deplacer(ok, ctx.meteo);
    Appartenance(p, d, c);
    DistinctesParFile(p, d);
    assert forall j :: 0 <= j < |q| && j != i ==> q[j] != c;
    var nq := f.File(d)[i := Deplacee(f.File(d)[i], ok, Vitesse(c.estAmbulance, ctx.meteo))];
    assert Snap(q) == nq;
    assert d != N ==> Snap(p.n) == f.nord;
    assert d != S ==> Snap(p.s) == f.sud;
    assert d != E ==> Snap(p.e) == f.est;
    assert d != O ==> Snap(p.o) == f.ouest;
    assert VueDe(p) == f.AvecFile(d, nq);
  }

  /**
   * One queue's whole step over the queues `p`: the movement pass, then the
   * exit filter; `r` is `p` with queue `d` replaced by its kept vehicles.
   */
  method AvancerFileObjets(p: ParDirection<seq<Voiture>>, d: Dir, ctx: Contexte) returns (r: ParDirection<seq<Voiture>>)
    requires FilesBienFormees(p)
    modifies p.Get(d)
    ensures FilesBienFormees(r)
    ensures forall d' :: d' != d ==> r.Get(d') == p.Get(d')
    ensures forall d', w :: w in r.Get(d') ==> w in p.Get(d')
    ensures VueDe(r) == AvancerFile(old(VueDe(p)), d, ctx)
  {
    ghost var f0 := VueDe(p);
    DeplacerFile(p, d, ctx);
    ghost var g := VueDe(p);
    var q := GarderVoitures(p.Get(d), d);
    GarderVoituresVue(p.Get(d), d);
    DistinctesParFile(p, d);
    GarderDistincts(p.Get(d), d);
    Remplacement(p, d, q);
    r := p.Avec(d, q);
    EgalesParFile(VueDe(r), g.AvecFile(d, Garder(g.File(d), d)));
  }

  /** The four queue passes of one frame over the queues `p`, in the order N, S, E, O. */
  method PasserObjets(p: ParDirection<seq<Voiture>>, ctx: Contexte) returns (r: ParDirection<seq<Voiture>>)
    requires FilesBienFormees(p)
    modifies p.n, p.s, p.e, p.o
    ensures FilesBienFormees(r)
    ensures forall d, w :: w in r.Get(d) ==> w in p.Get(d)
    ensures VueDe(r) == Passages(old(VueDe(p)), 4, ctx)
  {
    ghost var f0 := VueDe(p);
    r := p;
    for k := 0 to 4
      invariant FilesBienFormees(r)
      invariant VueDe(r) == Passages(f0, k, ctx)
      invariant forall d, w :: w in r.Get(d) ==> w in p.Get(d)
      invariant forall d :: Rang(d) >= k ==> r.Get(d) == p.Get(d)
    {
      r := AvancerFileObjets(r, DirDeRang(k), ctx);
    }
  }

  /** The snapshot of a manager depends only on its queues and on the vehicles in them. */
  twostate lemma VueInchangee(gv: GestionnaireVoitures)
    requires unchanged(gv`voituresNord, gv`voituresSud, gv`voituresEst, gv`voituresOuest)
    requires forall v :: v in gv.voituresNord || v in gv.voituresSud || v in gv.voituresEst || v in gv.voituresOuest ==> unchanged(v)
    ensures gv.Vue() == old(gv.Vue())
  {
    var p := gv.Quatre();
    forall d ensures Snap(p.Get(d)) == old(Snap(p.Get(d))) {
      var q := p.Get(d);
      assert forall j :: 0 <= j < |q| ==> q[j].Vue() == old(q[j].Vue()) by {
        forall j | 0 <= j < |q| ensures unchanged(q[j]) { assert q[j] in q; }
      }
    }
    EgalesParFile(gv.Vue(), old(gv.Vue()));
  }

  // ---------------------------------------------------------------------------
  // Demand counting loops (compter_voitures_*)
  // ---------------------------------------------------------------------------

  /** One loop of `compter_voitures_en_attente_*`: the vehicles of `q` in the waiting band of `d`. */
  method CompterEnAttenteFile(q: seq<Voiture>, d: Dir) returns (count: nat)
    ensures count == CompterAttente(Snap(q), d)
  {
    count := 0;
    var i := 0;
    while i < |q|
      invariant 0 <= i <= |q|
      invariant count == CompterAttente(Snap(q)[..i], d)
    {
      var c := q[i].Vue();
      if DansZoneAttente(c, d) {
        count := count + 1;
      }
      assert Snap(q)[..i + 1] == Snap(q)[..i] + [c];
      CompterAttenteAjout(Snap(q)[..i], c, d);
      i := i + 1;
    }
    assert Snap(q)[..i] == Snap(q);
  }

  /** One loop of `compter_voitures_approchant_*`: the vehicles of `q` in the approach band of `d`. */
  method CompterApprochantFile(q: seq<Voiture>, d: Dir) returns (count: nat)
    ensures count == CompterApproche(Snap(q), d)
  {
    count := 0;
    var i := 0;
    while i < |q|
      invariant 0 <= i <= |q|
      invariant count == CompterApproche(Snap(q)[..i], d)
    {
      var c := q[i].Vue();
      if DansZoneApproche(c, d) {
        count := count + 1;
      }
      assert Snap(q)[..i + 1] == Snap(q)[..i] + [c];
      CompterApprocheAjout(Snap(q)[..i], c, d);
      i := i + 1;
    }
    assert Snap(q)[..i] == Snap(q);
  }

  // ---------------------------------------------------------------------------
  // The manager
  // ---------------------------------------------------------------------------

  class GestionnaireVoitures {
    var voituresNord: seq<Voiture>
    var voituresSud: seq<Voiture>
    var voituresEst: seq<Voiture>
    var voituresOuest: seq<Voiture>
    var tempsSpawnVoiture: int
    var modeUrgence: bool
    var accidentActif: Option<Accident>
    var compteurAccidents: nat
    const dureeIntervention: int
    var ambulanceDirectionActive: Option<Dir>

    function Quatre(): ParDirection<seq<Voiture>>
      reads this`voituresNord, this`voituresSud, this`voituresEst, this`voituresOuest
    {
      ParDirection(voituresNord, voituresSud, voituresEst, voituresOuest)
    }

    function File(d: Dir): seq<Voiture>
      reads this`voituresNord, this`voituresSud, this`voituresEst, this`voituresOuest
    {
      Quatre().Get(d)
    }

    function Vue(): Files
      reads this`voituresNord, this`voituresSud, this`voituresEst, this`voituresOuest
      reads voituresNord, voituresSud, voituresEst, voituresOuest
    {
      VueDe(Quatre())
    }

    /**
     * The queues are well formed, emergency mode is on exactly while an
     * accident is recorded, and the spawn timer stays within its interval.
     */
    ghost predicate Valid()
      reads this
    {
      FilesBienFormees(Quatre())
      && (modeUrgence <==> accidentActif.Some?)
      && dureeIntervention == DUREE_INTERVENTION_ACCIDENT
      && 0 <= tempsSpawnVoiture <= INTERVALLE_SPAWN_VOITURES
    }

    constructor ()
      ensures Valid()
      ensures forall d :: File(d) == []
      ensures tempsSpawnVoiture == 0 && !modeUrgence && accidentActif.None?
      ensures compteurAccidents == 0 && ambulanceDirectionActive.None?
    {
      voituresNord, voituresSud, voituresEst, voituresOuest := [], [], [], [];
      tempsSpawnVoiture := 0;
      modeUrgence := false;
      accidentActif := None;
      compteurAccidents := 0;
      dureeIntervention := DUREE_INTERVENTION_ACCIDENT;
      ambulanceDirectionActive := None;
    }

    /** Replaces queue `d`; nothing else changes. */
    method SetFile(d: Dir, q: seq<Voiture>)
      modifies this
      ensures Quatre() == old(Quatre()).Avec(d, q)
      ensures Vue() == old(VueDe(Quatre().Avec(d, q)))
      ensures File(d) == q
      ensures forall d' :: d' != d ==> File(d') == old(File(d'))
      ensures tempsSpawnVoiture == old(tempsSpawnVoiture) && modeUrgence == old(modeUrgence)
      ensures accidentActif == old(accidentActif) && compteurAccidents == old(compteurAccidents)
      ensures ambulanceDirectionActive == old(ambulanceDirectionActive)
    {
      match d
      case N => voituresNord := q;
      case S => voituresSud := q;
      case E => voituresEst := q;
      case O => voituresOuest := q;
    }

    /** Replaces the four queues; nothing else changes. */
    method SetQuatre(p: ParDirection<seq<Voiture>>)
      modifies this
      ensures Quatre() == p
      ensures Vue() == old(VueDe(p))
      ensures tempsSpawnVoiture == old(tempsSpawnVoiture) && modeUrgence == old(modeUrgence)
      ensures accidentActif == old(accidentActif) && compteurAccidents == old(compteurAccidents)
      ensures ambulanceDirectionActive == old(ambulanceDirectionActive)
    {
      voituresNord, voituresSud, voituresEst, voituresOuest := p.n, p.s, p.e, p.o;
    }

    /** Appends a vehicle that is in no queue to the queue of its direction. */
    method Ajouter(v: Voiture)
      requires Valid()
      requires forall d :: v !in File(d)
      modifies this
      ensures Valid()
      ensures File(v.direction) == old(File(v.direction)) + [v]
      ensures forall d :: d != v.direction ==> File(d) == old(File(d))
      ensures Vue() == old(Vue()).AvecFile(v.direction, old(Vue()).File(v.direction) + [v.Vue()])
      ensures tempsSpawnVoiture == old(tempsSpawnVoiture) && modeUrgence == old(modeUrgence)
      ensures accidentActif == old(accidentActif) && compteurAccidents == old(compteurAccidents)
      ensures ambulanceDirectionActive == old(ambulanceDirectionActive)
    {
      ghost var f0 := Vue();
      var d := v.direction;
      assert Distincts(File(d) + [v]) by { DistinctesParFile(Quatre(), d); }
      Remplacement(Quatre(), d, File(d) + [v]);
      SetFile(d, File(d) + [v]);
      assert Snap(File(d)) == f0.File(d) + [v.Vue()];
      EgalesParFile(Vue(), f0.AvecFile(d, f0.File(d) + [v.Vue()]));
    }

    /**
     * `spawn_voitures`: the timer advances each call; once it passes the
     * interval it resets and each direction may receive one new vehicle.
     */
    method SpawnVoitures(niveaux: ParDirection<int>, aleas: ParDirection<real>)
      requires Valid()
      modifies this
      ensures Valid()
      ensures forall d, w :: w in File(d) ==> w in old(File(d)) || fresh(w)
      ensures old(tempsSpawnVoiture) + 1 > INTERVALLE_SPAWN_VOITURES ==>
                tempsSpawnVoiture == 0 && Vue() == Apparitions(old(Vue()), niveaux, aleas)
      ensures old(tempsSpawnVoiture) + 1 <= INTERVALLE_SPAWN_VOITURES ==>
                tempsSpawnVoiture == old(tempsSpawnVoiture) + 1 && Vue() == old(Vue())
      ensures modeUrgence == old(modeUrgence) && accidentActif == old(accidentActif)
      ensures compteurAccidents == old(compteurAccidents)
      ensures ambulanceDirectionActive == old(ambulanceDirectionActive)
    {
      ghost var f0 := Vue();
      if tempsSpawnVoiture + 1 > INTERVALLE_SPAWN_VOITURES {
        tempsSpawnVoiture := 0;
        assert Vue() == f0;
        Apparaitre(niveaux, aleas);
      } else {
        tempsSpawnVoiture := tempsSpawnVoiture + 1;
        assert Vue() == f0;
      }
    }

    /** The four directions of one spawn step. */
    method Apparaitre(niveaux: ParDirection<int>, aleas: ParDirection<real>)
      requires Valid()
      modifies this
      ensures Valid()
      ensures forall d, w :: w in File(d) ==> w in old(File(d)) || fresh(w)
      ensures Vue() == Apparitions(old(Vue()), niveaux, aleas)
      ensures tempsSpawnVoiture == old(tempsSpawnVoiture) && modeUrgence == old(modeUrgence)
      ensures accidentActif == old(accidentActif) && compteurAccidents == old(compteurAccidents)
      ensures ambulanceDirectionActive == old(ambulanceDirectionActive)
    {
      ghost var f0 := Vue();
      AjouterSiTirage(N, niveaux.n, aleas.n);
      AjouterSiTirage(S, niveaux.s, aleas.s);
      AjouterSiTirage(E, niveaux.e, aleas.e);
      AjouterSiTirage(O, niveaux.o, aleas.o);
      ApparitionsEnChaine(f0, niveaux, aleas);
    }

    /** One direction of the spawn step. */
    method AjouterSiTirage(d: Dir, niveau: int, alea: real)
      requires Valid()
      modifies this
      ensures Valid()
      ensures forall d, w :: w in File(d) ==> w in old(File(d)) || fresh(w)
      ensures Vue() == old(Vue()).AvecFile(d, Apparition(old(Vue()).File(d), d, niveau, alea))
      ensures tempsSpawnVoiture == old(tempsSpawnVoiture) && modeUrgence == old(modeUrgence)
      ensures accidentActif == old(accidentActif) && compteurAccidents == old(compteurAccidents)
      ensures ambulanceDirectionActive == old(ambulanceDirectionActive)
    {
      ghost var f0 := Vue();
      if |File(d)| < niveau && alea > PROBABILITE_SPAWN {
        AjouterNouvelle(d);
        assert f0.File(d) + [PointApparition(d)] == Apparition(f0.File(d), d, niveau, alea);
      } else {
        assert f0.AvecFile(d, f0.File(d)) == f0;
      }
    }

    /** A new vehicle at the entry point of direction `d`, appended to that queue. */
    method AjouterNouvelle(d: Dir)
      requires Valid()
      modifies this
      ensures Valid()
      ensures forall d, w :: w in File(d) ==> w in old(File(d)) || fresh(w)
      ensures Vue() == old(Vue()).AvecFile(d, old(Vue()).File(d) + [PointApparition(d)])
      ensures tempsSpawnVoiture == old(tempsSpawnVoiture) && modeUrgence == old(modeUrgence)
      ensures accidentActif == old(accidentActif) && compteurAccidents == old(compteurAccidents)
      ensures ambulanceDirectionActive == old(ambulanceDirectionActive)
    {
      var p := PointApparition(d);
      var v := new Voiture(p.x, p.y, d);
      Ajouter(v);
      forall d', w | w in File(d') ensures w in old(File(d')) || fresh(w) {
        if d' == d && w !in old(File(d')) {
          assert w == v;
        }
      }
    }

    /** `spawn_voitures_initial`: one vehicle per direction for each drawn position record. */
    method SpawnVoituresInitial(positions: seq<ParDirection<int>>)
      requires Valid()
      requires VOITURES_INITIALES_MIN <= |positions| <= VOITURES_INITIALES_MAX
      requires forall k :: 0 <= k < |positions| ==> PositionsInitialesValides(positions[k])
      modifies this
      ensures Valid()
      ensures Vue() == AvecInitiales(old(Vue()), positions)
      ensures tempsSpawnVoiture == old(tempsSpawnVoiture) && modeUrgence == old(modeUrgence)
      ensures accidentActif == old(accidentActif) && compteurAccidents == old(compteurAccidents)
      ensures ambulanceDirectionActive == old(ambulanceDirectionActive)
    {
      ghost var f0 := Vue();
      var k := 0;
      while k < |positions|
        invariant 0 <= k <= |positions|
        invariant Valid()
        invariant Vue() == AvecInitiales(f0, positions[..k])
        invariant tempsSpawnVoiture == old(tempsSpawnVoiture) && modeUrgence == old(modeUrgence)
        invariant accidentActif == old(accidentActif) && compteurAccidents == old(compteurAccidents)
        invariant ambulanceDirectionActive == old(ambulanceDirectionActive)
      {
        var p := positions[k];
        AjouterInitiale(N, p.n);
        AjouterInitiale(S, p.s);
        AjouterInitiale(E, p.e);
        AjouterInitiale(O, p.o);
        InitialesEnChaine(f0, positions, k);
        k := k + 1;
      }
      assert positions[..k] == positions;
    }

    method AjouterInitiale(d: Dir, p: int)
      requires Valid()
      modifies this
      ensures Valid()
      ensures Vue() == old(Vue()).AvecFile(d, old(Vue()).File(d) + [VoitureInitiale(d, p)])
      ensures tempsSpawnVoiture == old(tempsSpawnVoiture) && modeUrgence == old(modeUrgence)
      ensures accidentActif == old(accidentActif) && compteurAccidents == old(compteurAccidents)
      ensures ambulanceDirectionActive == old(ambulanceDirectionActive)
    {
      var c := VoitureInitiale(d, p);
      var v := new Voiture(c.x, c.y, d);
      Ajouter(v);
    }

    /**
     * `update_voitures`: frozen in emergency mode; otherwise records the
     * ambulance axis and runs the four queue passes, N, S, E, O.
     */
    method UpdateVoitures(feuNord: Feu.EtatFeu, feuSud: Feu.EtatFeu, feuEst: Feu.EtatFeu, feuOuest: Feu.EtatFeu,
                          meteo: Meteo.Etat)
      requires Valid()
      modifies this, voituresNord, voituresSud, voituresEst, voituresOuest
      ensures Valid()
      ensures Vue() == MiseAJour(old(Vue()), old(modeUrgence), SignauxDe(feuNord, feuSud, feuEst, feuOuest), meteo)
      ensures forall d, w :: w in File(d) ==> w in old(File(d))
      ensures ambulanceDirectionActive == if old(modeUrgence) then old(ambulanceDirectionActive) else AmbulanceActive(old(Vue()))
      ensures tempsSpawnVoiture == old(tempsSpawnVoiture) && modeUrgence == old(modeUrgence)
      ensures accidentActif == old(accidentActif) && compteurAccidents == old(compteurAccidents)
    {
      if modeUrgence {
        return;
      }
      var ctx := Contexte(AmbulanceActive(Vue()), SignauxDe(feuNord, feuSud, feuEst, feuOuest), meteo);
      ambulanceDirectionActive := ctx.ambulance;
      assert Vue() == old(Vue());
      Passer(ctx);
    }

    /** The four queue passes of one frame, in the order N, S, E, O. */
    method Passer(ctx: Contexte)
      requires Valid()
      modifies this, voituresNord, voituresSud, voituresEst, voituresOuest
      ensures Valid()
      ensures Vue() == Passages(old(Vue()), 4, ctx)
      ensures forall d, w :: w in File(d) ==> w in old(File(d))
      ensures tempsSpawnVoiture == old(tempsSpawnVoiture) && modeUrgence == old(modeUrgence)
      ensures accidentActif == old(accidentActif) && compteurAccidents == old(compteurAccidents)
      ensures ambulanceDirectionActive == old(ambulanceDirectionActive)
    {
      var p := PasserObjets(Quatre(), ctx);
      SetQuatre(p);
    }

    /**
     * `detecter_collisions`: nothing while an accident is recorded; otherwise
     * the first close pair of the zone list, as the two vehicle objects and
     * their queues.
     */
    function DetecterCollisions(): (r: Option<(Voiture, Voiture, Dir, Dir)>)
      reads this, voituresNord, voituresSud, voituresEst, voituresOuest
      ensures accidentActif.Some? ==> r.None?
      ensures r.Some? ==> r.value.0 in File(r.value.2) && r.value.1 in File(r.value.3)
      ensures r.Some? ==> DansZoneCentrale(r.value.0.Vue(), r.value.2) && DansZoneCentrale(r.value.1.Vue(), r.value.3)
      ensures r.Some? ==> Proches(r.value.0.Vue(), r.value.1.Vue())
      ensures accidentActif.None? && r.None? ==> AucunePaireProche(ListeZone(Vue()))
      ensures accidentActif.None? ==> (r.Some? <==> PremiereCollision(Vue()).Some?)
      ensures r.Some? ==> var p := PremiereCollision(Vue()).value;
                          r.value.2 == p.0.d && r.value.3 == p.1.d
                          && p.0.k < |File(p.0.d)| && r.value.0 == File(p.0.d)[p.0.k]
                          && p.1.k < |File(p.1.d)| && r.value.1 == File(p.1.d)[p.1.k]
    {
      if accidentActif.Some? then None
      else
        var f := Vue();
        match PremiereCollision(f)
        case None => None
        case Some(p) =>
          var e1 := p.0;
          var e2 := p.1;
          Some((File(e1.d)[e1.k], File(e2.d)[e2.k], e1.d, e2.d))
    }

    /** `declencher_accident`: records the accident at the floored midpoint and enters emergency mode. */
    method DeclencherAccident(v1: Voiture, v2: Voiture, dir1: Dir, dir2: Dir)
      requires Valid()
      modifies this
      ensures Valid()
      ensures accidentActif == Some(Accident(Milieu(v1.x, v2.x), Milieu(v1.y, v2.y), dir1, dir2,
                                             DUREE_INTERVENTION_ACCIDENT, v1, v2))
      ensures modeUrgence && compteurAccidents == old(compteurAccidents) + 1
      ensures forall d :: File(d) == old(File(d))
      ensures tempsSpawnVoiture == old(tempsSpawnVoiture)
      ensures ambulanceDirectionActive == old(ambulanceDirectionActive)
    {
      var posX := Milieu(v1.x, v2.x);
      var posY := Milieu(v1.y, v2.y);
      accidentActif := Some(Accident(posX, posY, dir1, dir2, dureeIntervention, v1, v2));
      modeUrgence := true;
      compteurAccidents := compteurAccidents + 1;
    }

    /**
     * `gerer_accident`, called once per frame: counts the intervention down
     * and, when it reaches zero, removes both vehicles from whatever queue
     * holds them and leaves emergency mode.
     */
    method GererAccident() returns (termine: bool)
      requires Valid()
      modifies this
      ensures Valid()
      ensures termine <==> old(accidentActif).Some? && old(accidentActif).value.duree - 1 <= 0
      ensures old(accidentActif).None? ==> accidentActif.None? && Quatre() == old(Quatre())
      ensures old(accidentActif).Some? && !termine ==>
                accidentActif == Some(old(accidentActif).value.(duree := old(accidentActif).value.duree - 1))
                && Quatre() == old(Quatre())
      ensures termine ==> accidentActif.None? && !modeUrgence
      ensures termine ==> Quatre() == RetirerDe(RetirerDe(old(Quatre()), old(accidentActif).value.voiture1),
                                                old(accidentActif).value.voiture2)
      ensures compteurAccidents == old(compteurAccidents) && tempsSpawnVoiture == old(tempsSpawnVoiture)
      ensures ambulanceDirectionActive == old(ambulanceDirectionActive)
    {
      if accidentActif.None? {
        return false;
      }
      var a := accidentActif.value;
      a := a.(duree := a.duree - 1);
      accidentActif := Some(a);
      if a.duree <= 0 {
        RetirerPartout(a.voiture1);
        RetirerPartout(a.voiture2);
        accidentActif := None;
        modeUrgence := false;
        return true;
      }
      return false;
    }

    /** Removes `v` from every queue that holds it. */
    method RetirerPartout(v: Voiture)
      requires Valid()
      modifies this
      ensures Quatre() == RetirerDe(old(Quatre()), v)
      ensures Valid()
      ensures tempsSpawnVoiture == old(tempsSpawnVoiture) && modeUrgence == old(modeUrgence)
      ensures accidentActif == old(accidentActif) && compteurAccidents == old(compteurAccidents)
      ensures ambulanceDirectionActive == old(ambulanceDirectionActive)
    {
      RetraitBienForme(Quatre(), v);
      voituresNord := Retirer(voituresNord, v);
      voituresSud := Retirer(voituresSud, v);
      voituresEst := Retirer(voituresEst, v);
      voituresOuest := Retirer(voituresOuest, v);
    }

    /**
     * `simuler_accident`: refused in emergency mode; otherwise records an
     * accident between two stand-in vehicles that belong to no queue.
     */
    method SimulerAccident() returns (ok: bool)
      requires Valid()
      modifies this
      ensures Valid()
      ensures ok <==> !old(modeUrgence)
      ensures !ok ==> accidentActif == old(accidentActif) && compteurAccidents == old(compteurAccidents)
      ensures ok ==> modeUrgence && compteurAccidents == old(compteurAccidents) + 1
      ensures ok ==> accidentActif.Some? && accidentActif.value.posX == 470.0 && accidentActif.value.posY == 420.0
                     && accidentActif.value.dir1 == N && accidentActif.value.dir2 == E
                     && accidentActif.value.duree == DUREE_INTERVENTION_ACCIDENT
      ensures ok ==> forall d :: accidentActif.value.voiture1 !in File(d) && accidentActif.value.voiture2 !in File(d)
      ensures forall d :: File(d) == old(File(d))
      ensures tempsSpawnVoiture == old(tempsSpawnVoiture)
      ensures ambulanceDirectionActive == old(ambulanceDirectionActive)
    {
      if modeUrgence {
        return false;
      }
      var v1 := new Voiture(CENTRE_X - 60.0, CENTRE_Y, N);
      var v2 := new Voiture(CENTRE_X, CENTRE_Y - 60.0, E);
      DeclencherAccident(v1, v2, N, E);
      return true;
    }

    /** `compter_voitures_en_attente_ns`: the North loop, then the South loop. */
    method CompterVoituresEnAttenteNS() returns (count: nat)
      ensures count == CompterEnAttenteNS(Vue())
    {
      var nord := CompterEnAttenteFile(voituresNord, N);
      var sud := CompterEnAttenteFile(voituresSud, S);
      count := nord + sud;
    }

    method CompterVoituresEnAttenteEO() returns (count: nat)
      ensures count == CompterEnAttenteEO(Vue())
    {
      var est := CompterEnAttenteFile(voituresEst, E);
      var ouest := CompterEnAttenteFile(voituresOuest, O);
      count := est + ouest;
    }

    method CompterVoituresApprochantNS() returns (count: nat)
      ensures count == CompterApprochantNS(Vue())
    {
      var nord := CompterApprochantFile(voituresNord, N);
      var sud := CompterApprochantFile(voituresSud, S);
      count := nord + sud;
    }

    method CompterVoituresApprochantEO() returns (count: nat)
      ensures count == CompterApprochantEO(Vue())
    {
      var est := CompterApprochantFile(voituresEst, E);
      var ouest := CompterApprochantFile(voituresOuest, O);
      count := est + ouest;
    }

    /** The two North-South counts. */
    method MesurerNS() returns (attente: nat, approchant: nat)
      ensures attente == CompterEnAttenteNS(Vue()) && approchant == CompterApprochantNS(Vue())
    {
      attente := CompterVoituresEnAttenteNS();
      approchant := CompterVoituresApprochantNS();
    }

    method MesurerEO() returns (attente: nat, approchant: nat)
      ensures attente == CompterEnAttenteEO(Vue()) && approchant == CompterApprochantEO(Vue())
    {
      attente := CompterVoituresEnAttenteEO();
      approchant := CompterVoituresApprochantEO();
    }

    /** The four counts the controller reads, taken together. */
    method MesurerDemandes() returns (dem: Demandes)
      ensures dem == DemandesDe(Vue())
    {
      var attenteNS, approchantNS := MesurerNS();
      var attenteEO, approchantEO := MesurerEO();
      dem := Demandes(attenteNS, approchantNS, attenteEO, approchantEO);
    }
  }

  /**
   * Once an accident between two queued vehicles is cleared, neither is left in
   * any queue and every other vehicle is still in its own.
   */
  lemma RetraitComplet(q: seq<Voiture>, v1: Voiture, v2: Voiture)
    requires Distincts(q)
    ensures v1 !in Retirer(Retirer(q, v1), v2) && v2 !in Retirer(Retirer(q, v1), v2)
    ensures forall w :: w in q && w != v1 && w != v2 ==> w in Retirer(Retirer(q, v1), v2)
  {
    var r1 := Retirer(q, v1);
    RetirerDistincts(q, v1);
    RetirerDistincts(r1, v2);
    forall w | w in q && w != v1 && w != v2
      ensures w in Retirer(r1, v2)
    {
      RetirerGarde(q, v1, w);
      RetirerGarde(r1, v2, w);
    }
  }

  /** `remove` keeps every other vehicle of the queue. */
  lemma RetirerGarde(q: seq<Voiture>, v: Voiture, w: Voiture)
    requires w in q && w != v
    ensures w in Retirer(q, v)
  {
    RetirerMultiensemble(q, v);
    assert multiset(q)[w] > 0;
  }
}
