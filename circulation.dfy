/**
 * One frame of vehicle movement (`update_voitures` in
 * feu_tricolore/gestionnaire_voitures.py) over the value snapshot of the four
 * queues. The queues are processed N, S, E, O; inside a queue vehicles are
 * processed front to back, each decision seeing the vehicles already moved
 * this frame; each queue is then cut of the vehicles that left the screen.
 * The vehicle manager's method is proved to perform exactly `MiseAJour`.
 */
module Circulation {
  import opened Constantes
  import opened Options
  import opened Voiture
  import opened Voies
  import Meteo

  /** What every decision of the frame sees besides the queues themselves. */
  datatype Contexte = Contexte(ambulance: Option<Dir>, sig: Signaux, meteo: Meteo.Etat)

  /** The stop band in front of the stop line of queue `d`: short of the junction, outside its central zone. */
  function DansZoneArret(c: VueVoiture, d: Dir): (r: bool)
    ensures r ==> 120.0 < DistanceAuCentre(c, d) <= 190.0
    ensures r ==> !DansZoneCentrale(c, d)
  {
    match d
    case N => ZONE_ARRET_NORD_MIN <= c.y < ZONE_ARRET_NORD_MAX
    case S => ZONE_ARRET_SUD_MIN < c.y <= ZONE_ARRET_SUD_MAX
    case E => ZONE_ARRET_EST_MIN < c.x <= ZONE_ARRET_EST_MAX
    case O => ZONE_ARRET_OUEST_MIN <= c.x < ZONE_ARRET_OUEST_MAX
  }

  /**
   * Distance from `c` to the vehicle ahead of it in queue `d`: for two
   * vehicles travelling in the direction of their queue, their difference of
   * progress.
   */
  function Ecart(devant: VueVoiture, c: VueVoiture, d: Dir): (r: real)
    ensures devant.direction == d && c.direction == d ==> r == Avancement(devant) - Avancement(c)
  {
    match d
    case N => devant.y - c.y
    case S => c.y - devant.y
    case E => c.x - devant.x
    case O => devant.x - c.x
  }

  /**
   * An ambulance is present on the axis of queue `d`: one in the queue itself
   * or in the opposite queue counts (a South-bound ambulance holds the North
   * queue), one on the crossing axis does not.
   */
  function AmbulanceSurAxe(ctx: Contexte, d: Dir): (r: bool)
    ensures ctx.ambulance.None? ==> !r
    ensures ctx.ambulance == Some(d) ==> r
    ensures d == N && ctx.ambulance == Some(S) ==> r
    ensures d == S && ctx.ambulance == Some(N) ==> r
    ensures d == E && ctx.ambulance == Some(O) ==> r
    ensures d == O && ctx.ambulance == Some(E) ==> r
    ensures ctx.ambulance.Some? && AxeNS(ctx.ambulance.value) != AxeNS(d) ==> !r
  {
    ctx.ambulance.Some? && AxeNS(ctx.ambulance.value) == AxeNS(d)
  }

  /**
   * The decision taken for vehicle `i` of queue `d` in state `f`: an
   * ambulance follows its own rule; an ordinary vehicle advances exactly when
   * it is not within the safety distance of the vehicle ahead and not in its
   * stop band while its light is not green, a crossing on its axis is in use
   * or an ambulance is on its axis.
   */
  function PeutAvancer(f: Files, d: Dir, i: nat, ctx: Contexte): (r: bool)
    requires i < |f.File(d)|
    ensures f.File(d)[i].estAmbulance ==> r == PeutAmbulanceAvancer(f.File(d)[i], d, ctx.sig, f)
    ensures !f.File(d)[i].estAmbulance ==>
              (r <==> !(i > 0 && Ecart(f.File(d)[i - 1], f.File(d)[i], d) < DISTANCE_SECURITE_VOITURE)
                      && !(DansZoneArret(f.File(d)[i], d)
                           && (AmbulanceSurAxe(ctx, d) || ctx.sig.PietonsSurAxe(d) || !ctx.sig.Vert(d))))
  {
    var q := f.File(d);
    var c := q[i];
    if c.estAmbulance then PeutAmbulanceAvancer(c, d, ctx.sig, f)
    else if AmbulanceSurAxe(ctx, d) && DansZoneArret(c, d) then false
    else if ctx.sig.PietonsSurAxe(d) && DansZoneArret(c, d) then false
    else
      var tropProche := i > 0 && Ecart(q[i - 1], c, d) < DISTANCE_SECURITE_VOITURE;
      var auFeu := !ctx.sig.Vert(d) && DansZoneArret(c, d);
      !tropProche && !auFeu
  }

  /** Vehicle `i` of queue `d` takes its decision and moves (or not); nothing else changes. */
  function EtapeVoiture(f: Files, d: Dir, i: nat, ctx: Contexte): (r: Files)
    requires i < |f.File(d)|
    ensures forall d' :: d' != d ==> r.File(d') == f.File(d')
    ensures |r.File(d)| == |f.File(d)|
    ensures forall j :: 0 <= j < |f.File(d)| && j != i ==> r.File(d)[j] == f.File(d)[j]
    ensures r.File(d)[i] == Deplacee(f.File(d)[i], PeutAvancer(f, d, i, ctx), Vitesse(f.File(d)[i].estAmbulance, ctx.meteo))
  {
    var c := f.File(d)[i];
    f.AvecFile(d, f.File(d)[i := Deplacee(c, PeutAvancer(f, d, i, ctx), Vitesse(c.estAmbulance, ctx.meteo))])
  }

  /** The state after the first `n` vehicles of queue `d` have taken their step. */
  function EtapesFile(f: Files, d: Dir, n: nat, ctx: Contexte): (r: Files)
    requires n <= |f.File(d)|
    ensures |r.File(d)| == |f.File(d)|
    ensures forall d' :: d' != d ==> r.File(d') == f.File(d')
    ensures forall j :: n <= j < |f.File(d)| ==> r.File(d)[j] == f.File(d)[j]
    decreases n
  {
    if n == 0 then f else EtapeVoiture(EtapesFile(f, d, n - 1, ctx), d, n - 1, ctx)
  }

  /**
   * Whether a vehicle of queue `d` is still on screen (`LIMITE_SORTIE_*`):
   * a vehicle anywhere on the road area, in particular in its stop band or in
   * the junction, is kept.
   */
  function Reste(c: VueVoiture, d: Dir): (r: bool)
    ensures 0.0 <= c.x <= LARGEUR - 600.0 && 0.0 <= c.y <= HAUTEUR ==> r
    ensures DansZoneArret(c, d) ==> r
    ensures DansZoneCentrale(c, d) ==> r
  {
    match d
    case N => c.y <= LIMITE_SORTIE_NORD
    case S => c.y >= LIMITE_SORTIE_SUD
    case E => c.x >= LIMITE_SORTIE_EST
    case O => c.x <= LIMITE_SORTIE_OUEST
  }

  /** The queue without the vehicles that left the screen, order kept. */
  function Garder(q: seq<VueVoiture>, d: Dir): (r: seq<VueVoiture>)
    ensures |r| <= |q|
    ensures forall k :: 0 <= k < |r| ==> Reste(r[k], d)
    ensures forall c :: c in r <==> c in q && Reste(c, d)
    ensures (forall k :: 0 <= k < |q| ==> Reste(q[k], d)) ==> r == q
    ensures |q| == 1 ==> r == (if Reste(q[0], d) then q else [])
  {
    if q == [] then []
    else if Reste(q[0], d) then [q[0]] + Garder(q[1..], d)
    else Garder(q[1..], d)
  }

  /**
   * The filter works vehicle by vehicle and keeps the survivors in their
   * order: with the single-vehicle case of `Garder` this fixes the kept
   * queue, order and repetitions included.
   */
  lemma {:induction false} GarderConcat(a: seq<VueVoiture>, b: seq<VueVoiture>, d: Dir)
    ensures Garder(a + b, d) == Garder(a, d) + Garder(b, d)
  {
    if a != [] {
      assert (a + b)[1..] == a[1..] + b;
      GarderConcat(a[1..], b, d);
    } else {
      assert a + b == b;
    }
  }

  /** One queue's whole step: every vehicle moves in turn, then the exits are removed. */
  function AvancerFile(f: Files, d: Dir, ctx: Contexte): (r: Files)
    ensures forall d' :: d' != d ==> r.File(d') == f.File(d')
    ensures |r.File(d)| <= |f.File(d)|
    ensures forall k :: 0 <= k < |r.File(d)| ==> Reste(r.File(d)[k], d)
    ensures r.File(d) == Garder(EtapesFile(f, d, |f.File(d)|, ctx).File(d), d)
  {
    var g := EtapesFile(f, d, |f.File(d)|, ctx);
    g.AvecFile(d, Garder(g.File(d), d))
  }

  /**
   * `update_voitures`: nothing moves in emergency mode; otherwise the axis of
   * the first queue holding an ambulance is fixed for the whole frame and the
   * four queues step in the order N, S, E, O.
   */
  function MiseAJour(f: Files, modeUrgence: bool, sig: Signaux, meteo: Meteo.Etat): (r: Files)
    ensures modeUrgence ==> r == f
    ensures forall d :: |r.File(d)| <= |f.File(d)|
    ensures !modeUrgence ==> forall d, k :: 0 <= k < |r.File(d)| ==> Reste(r.File(d)[k], d)
    ensures !modeUrgence ==>
              var ctx := Contexte(AmbulanceActive(f), sig, meteo);
              forall d :: r.File(d) == Garder(EtapesFile(Passages(f, Rang(d), ctx), d, |f.File(d)|, ctx).File(d), d)
  {
    if modeUrgence then f
    else
      var ctx := Contexte(AmbulanceActive(f), sig, meteo);
      PassagesBornees(f, 4, ctx);
      PassagesParFile(f, ctx);
      Passages(f, 4, ctx)
  }

  /** After the four passes, each queue is the on-screen part of its own pass over the state the earlier passes left. */
  lemma PassagesParFile(f: Files, ctx: Contexte)
    ensures forall d :: Passages(f, 4, ctx).File(d)
                        == Garder(EtapesFile(Passages(f, Rang(d), ctx), d, |f.File(d)|, ctx).File(d), d)
  {
    forall d
      ensures Passages(f, 4, ctx).File(d)
              == Garder(EtapesFile(Passages(f, Rang(d), ctx), d, |f.File(d)|, ctx).File(d), d)
    {
      var p := Passages(f, Rang(d), ctx);
      assert p.File(d) == f.File(d);
      assert Passages(f, 4, ctx).File(d) == AvancerFile(p, d, ctx).File(d);
    }
  }

  /**
   * The first `k` queue passes of a frame, in the order N, S, E, O: a queue
   * not yet reached is untouched, and a queue already reached holds what its
   * own pass made of it, later passes leaving it alone.
   */
  function Passages(f: Files, k: nat, ctx: Contexte): (r: Files)
    requires k <= 4
    ensures forall d :: Rang(d) >= k ==> r.File(d) == f.File(d)
    ensures forall d :: Rang(d) < k ==> r.File(d) == AvancerFile(Passages(f, Rang(d), ctx), d, ctx).File(d)
  {
    if k == 0 then f else AvancerFile(Passages(f, k - 1, ctx), DirDeRang(k - 1), ctx)
  }

  /**
   * After the first `k` passes no queue has grown, and every vehicle left in
   * a queue already stepped is still on screen.
   */
  lemma {:induction false} PassagesBornees(f: Files, k: nat, ctx: Contexte)
    requires k <= 4
    ensures forall d :: |Passages(f, k, ctx).File(d)| <= |f.File(d)|
    ensures forall d, j :: Rang(d) < k && 0 <= j < |Passages(f, k, ctx).File(d)| ==> Reste(Passages(f, k, ctx).File(d)[j], d)
  {
    if k > 0 {
      PassagesBornees(f, k - 1, ctx);
      var g := Passages(f, k - 1, ctx);
      var r := Passages(f, k, ctx);
      assert r == AvancerFile(g, DirDeRang(k - 1), ctx);
      forall d, j | Rang(d) < k && 0 <= j < |r.File(d)|
        ensures Reste(r.File(d)[j], d)
      {
        if d != DirDeRang(k - 1) {
          assert r.File(d) == g.File(d);
        }
      }
    }
  }

  // ---------------------------------------------------------------------------
  // What a frame promises about each vehicle
  // ---------------------------------------------------------------------------

  /** Once vehicle `i` has taken its step, later steps of the queue leave it alone. */
  lemma {:induction false} FigeeApresSonTour(f: Files, d: Dir, i: nat, n: nat, ctx: Contexte)
    requires i < n <= |f.File(d)|
    ensures EtapesFile(f, d, n, ctx).File(d)[i] == EtapesFile(f, d, i + 1, ctx).File(d)[i]
    decreases n
  {
    if n > i + 1 {
      FigeeApresSonTour(f, d, i, n - 1, ctx);
    }
  }

  /**
   * The final value of vehicle `i` after its queue's pass: its original value
   * moved according to the decision taken on the state reached at its turn.
   */
  lemma TourDeLaVoiture(f: Files, d: Dir, i: nat, ctx: Contexte)
    requires i < |f.File(d)|
    ensures EtapesFile(f, d, i, ctx).File(d)[i] == f.File(d)[i]
    ensures EtapesFile(f, d, |f.File(d)|, ctx).File(d)[i]
            == Deplacee(f.File(d)[i], PeutAvancer(EtapesFile(f, d, i, ctx), d, i, ctx),
                        Vitesse(f.File(d)[i].estAmbulance, ctx.meteo))
  {
    FigeeApresSonTour(f, d, i, |f.File(d)|, ctx);
  }

  /** An ordinary vehicle in its stop band does not move while its light is not green. */
  lemma ArretAuFeu(f: Files, d: Dir, i: nat, ctx: Contexte)
    requires i < |f.File(d)| && !f.File(d)[i].estAmbulance
    requires DansZoneArret(f.File(d)[i], d) && !ctx.sig.Vert(d)
    ensures EtapesFile(f, d, |f.File(d)|, ctx).File(d)[i] == f.File(d)[i]
  {
    TourDeLaVoiture(f, d, i, ctx);
  }

  /** An ordinary vehicle in its stop band does not move while a crossing on its axis is in use. */
  lemma ArretPietons(f: Files, d: Dir, i: nat, ctx: Contexte)
    requires i < |f.File(d)| && !f.File(d)[i].estAmbulance
    requires DansZoneArret(f.File(d)[i], d) && ctx.sig.PietonsSurAxe(d)
    ensures EtapesFile(f, d, |f.File(d)|, ctx).File(d)[i] == f.File(d)[i]
  {
    TourDeLaVoiture(f, d, i, ctx);
  }

  /** An ordinary vehicle in its stop band does not move while an ambulance is on its axis. */
  lemma ArretAmbulance(f: Files, d: Dir, i: nat, ctx: Contexte)
    requires i < |f.File(d)| && !f.File(d)[i].estAmbulance
    requires DansZoneArret(f.File(d)[i], d) && AmbulanceSurAxe(ctx, d)
    ensures EtapesFile(f, d, |f.File(d)|, ctx).File(d)[i] == f.File(d)[i]
  {
    TourDeLaVoiture(f, d, i, ctx);
  }

  /**
   * An ordinary vehicle does not move when the vehicle ahead, at its position
   * after this frame's step, is less than the safety distance ahead.
   */
  lemma DistanceDeSecurite(f: Files, d: Dir, i: nat, ctx: Contexte)
    requires 0 < i < |f.File(d)| && !f.File(d)[i].estAmbulance
    requires Ecart(EtapesFile(f, d, |f.File(d)|, ctx).File(d)[i - 1], f.File(d)[i], d) < DISTANCE_SECURITE_VOITURE
    ensures EtapesFile(f, d, |f.File(d)|, ctx).File(d)[i] == f.File(d)[i]
  {
    TourDeLaVoiture(f, d, i, ctx);
    FigeeApresSonTour(f, d, i - 1, |f.File(d)|, ctx);
  }

  /**
   * An ordinary vehicle never overtakes the vehicle ahead of it: if it was not
   * ahead before the frame's pass it is not ahead after it. That the queue is
   * in order to begin with is a hypothesis of the lemma; the model does not
   * establish it, since the start-up positions are drawn independently.
   */
  lemma PasDeDepassement(f: Files, d: Dir, i: nat, ctx: Contexte)
    requires 0 < i < |f.File(d)| && !f.File(d)[i].estAmbulance
    requires f.File(d)[i - 1].direction == d && f.File(d)[i].direction == d
    requires Ecart(f.File(d)[i - 1], f.File(d)[i], d) >= 0.0
    ensures var g := EtapesFile(f, d, |f.File(d)|, ctx).File(d);
            Ecart(g[i - 1], g[i], d) >= 0.0
  {
    var q := f.File(d);
    var g := EtapesFile(f, d, |q|, ctx).File(d);
    TourDeLaVoiture(f, d, i, ctx);
    TourDeLaVoiture(f, d, i - 1, ctx);
    FigeeApresSonTour(f, d, i - 1, |q|, ctx);
    assert Ecart(q[i - 1], q[i], d) == Avancement(q[i - 1]) - Avancement(q[i]);
    assert Ecart(g[i - 1], g[i], d) == Avancement(g[i - 1]) - Avancement(g[i]);
  }
}
