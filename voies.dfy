/**
 * The read-only scans of the vehicle manager (feu_tricolore/gestionnaire_voitures.py)
 * over a value snapshot of its four queues: demand counting, presence of an
 * ambulance, the intersection-occupancy check, the ambulance motion rule and
 * the collision search. The source writes them as accumulator loops; they are
 * functions here.
 */
module Voies {
  import opened Constantes
  import opened Options
  import opened Voiture

  /** The four queues, in spawn order, as values. */
  datatype Files = Files(nord: seq<VueVoiture>, sud: seq<VueVoiture>, est: seq<VueVoiture>, ouest: seq<VueVoiture>)
  {
    function File(d: Dir): seq<VueVoiture>
    {
      match d
      case N => nord
      case S => sud
      case E => est
      case O => ouest
    }

    function AvecFile(d: Dir, q: seq<VueVoiture>): (r: Files)
      ensures r.File(d) == q
      ensures forall d' :: d' != d ==> r.File(d') == File(d')
    {
      match d
      case N => this.(nord := q)
      case S => this.(sud := q)
      case E => this.(est := q)
      case O => this.(ouest := q)
    }
  }

  /** Two snapshots are equal when their four queues are. */
  lemma EgalesParFile(a: Files, b: Files)
    requires forall d :: a.File(d) == b.File(d)
    ensures a == b
  {
    assert a.File(N) == b.File(N) && a.File(S) == b.File(S);
    assert a.File(E) == b.File(E) && a.File(O) == b.File(O);
  }

  // ---------------------------------------------------------------------------
  // Demand counting (compter_voitures_en_attente_*, compter_voitures_approchant_*)
  // ---------------------------------------------------------------------------

  /** The waiting band of a queue, 120 to 180 px short of the centre. */
  function DansZoneAttente(c: VueVoiture, d: Dir): (r: bool)
    ensures r <==> 120.0 < DistanceAuCentre(c, d) <= 180.0
  {
    match d
    case N => CENTRE_Y - ZONE_ATTENTE_NS_MAX <= c.y < CENTRE_Y - ZONE_ATTENTE_NS_MIN
    case S => CENTRE_Y + ZONE_ATTENTE_NS_MIN < c.y <= CENTRE_Y + ZONE_ATTENTE_NS_MAX
    case E => CENTRE_X + ZONE_ATTENTE_EO_MIN < c.x <= CENTRE_X + ZONE_ATTENTE_EO_MAX
    case O => CENTRE_X - ZONE_ATTENTE_EO_MAX <= c.x < CENTRE_X - ZONE_ATTENTE_EO_MIN
  }

  /** The approach band, 120 to 300 px short of the centre (it contains the waiting band). */
  function DansZoneApproche(c: VueVoiture, d: Dir): (r: bool)
    ensures r <==> 120.0 < DistanceAuCentre(c, d) < 300.0
  {
    match d
    case N => c.y < CENTRE_Y - ZONE_ATTENTE_NS_MIN && c.y > CENTRE_Y - ZONE_APPROCHE_DISTANCE
    case S => c.y > CENTRE_Y + ZONE_ATTENTE_NS_MIN && c.y < CENTRE_Y + ZONE_APPROCHE_DISTANCE
    case E => c.x > CENTRE_X + ZONE_ATTENTE_EO_MIN && c.x < CENTRE_X + ZONE_APPROCHE_DISTANCE
    case O => c.x < CENTRE_X - ZONE_ATTENTE_EO_MIN && c.x > CENTRE_X - ZONE_APPROCHE_DISTANCE
  }

  /** Number of vehicles of queue `q` (direction `d`) in the waiting band. */
  function CompterAttente(q: seq<VueVoiture>, d: Dir): (r: nat)
    ensures r <= |q|
    ensures r == 0 <==> forall k :: 0 <= k < |q| ==> !DansZoneAttente(q[k], d)
  {
    if q == [] then 0
    else (if DansZoneAttente(q[0], d) then 1 else 0) + CompterAttente(q[1..], d)
  }

  /** Number of vehicles of queue `q` (direction `d`) in the approach band. */
  function CompterApproche(q: seq<VueVoiture>, d: Dir): (r: nat)
    ensures r <= |q|
    ensures r == 0 <==> forall k :: 0 <= k < |q| ==> !DansZoneApproche(q[k], d)
  {
    if q == [] then 0
    else (if DansZoneApproche(q[0], d) then 1 else 0) + CompterApproche(q[1..], d)
  }

  function CompterEnAttenteNS(f: Files): (r: nat)
    ensures r == CompterAttente(f.File(N), N) + CompterAttente(f.File(S), S)
    ensures r <= |f.nord| + |f.sud|
  {
    CompterAttente(f.nord, N) + CompterAttente(f.sud, S)
  }

  function CompterEnAttenteEO(f: Files): (r: nat)
    ensures r == CompterAttente(f.File(E), E) + CompterAttente(f.File(O), O)
    ensures r <= |f.est| + |f.ouest|
  {
    CompterAttente(f.est, E) + CompterAttente(f.ouest, O)
  }

  function CompterApprochantNS(f: Files): (r: nat)
    ensures r == CompterApproche(f.File(N), N) + CompterApproche(f.File(S), S)
    ensures r <= |f.nord| + |f.sud|
  {
    CompterApproche(f.nord, N) + CompterApproche(f.sud, S)
  }

  function CompterApprochantEO(f: Files): (r: nat)
    ensures r == CompterApproche(f.File(E), E) + CompterApproche(f.File(O), O)
    ensures r <= |f.est| + |f.ouest|
  {
    CompterApproche(f.est, E) + CompterApproche(f.ouest, O)
  }

  /** Total demand of an axis as the controller computes it: waiting plus approaching. */
  function DemandeNS(f: Files): (r: nat)
    ensures r == CompterEnAttenteNS(f) + CompterApprochantNS(f)
    ensures r <= 2 * (|f.nord| + |f.sud|)
  {
    CompterEnAttenteNS(f) + CompterApprochantNS(f)
  }

  function DemandeEO(f: Files): (r: nat)
    ensures r == CompterEnAttenteEO(f) + CompterApprochantEO(f)
    ensures r <= 2 * (|f.est| + |f.ouest|)
  {
    CompterEnAttenteEO(f) + CompterApprochantEO(f)
  }

  /**
   * The four counts the controller reads from the vehicle manager: waiting
   * and approaching, per axis.
   */
  datatype Demandes = Demandes(attenteNS: nat, approchantNS: nat, attenteEO: nat, approchantEO: nat)
  {
    /** Waiting plus approaching on North-South, the total `passer_ns_vert` adds up. */
    function TotalNS(): (r: nat)
      ensures attenteNS <= r && approchantNS <= r
      ensures r == 0 <==> attenteNS == 0 && approchantNS == 0
    {
      attenteNS + approchantNS
    }

    /** Waiting plus approaching on East-West, the total `passer_eo_vert` adds up. */
    function TotalEO(): (r: nat)
      ensures attenteEO <= r && approchantEO <= r
      ensures r == 0 <==> attenteEO == 0 && approchantEO == 0
    {
      attenteEO + approchantEO
    }
  }

  /** The counts of a snapshot; the waiting vehicles are always among the approaching ones. */
  function DemandesDe(f: Files): (r: Demandes)
    ensures r.TotalNS() == DemandeNS(f) && r.TotalEO() == DemandeEO(f)
    ensures r.attenteNS <= r.approchantNS && r.attenteEO <= r.approchantEO
  {
    AttenteAuPlusApprochantAxes(f);
    Demandes(CompterEnAttenteNS(f), CompterApprochantNS(f), CompterEnAttenteEO(f), CompterApprochantEO(f))
  }

  /** Counting the waiting band one more vehicle at a time, as the source's loops do. */
  lemma {:induction false} CompterAttenteAjout(q: seq<VueVoiture>, c: VueVoiture, d: Dir)
    ensures CompterAttente(q + [c], d) == CompterAttente(q, d) + (if DansZoneAttente(c, d) then 1 else 0)
  {
    if q != [] {
      assert (q + [c])[1..] == q[1..] + [c];
      CompterAttenteAjout(q[1..], c, d);
    }
  }

  lemma {:induction false} CompterApprocheAjout(q: seq<VueVoiture>, c: VueVoiture, d: Dir)
    ensures CompterApproche(q + [c], d) == CompterApproche(q, d) + (if DansZoneApproche(c, d) then 1 else 0)
  {
    if q != [] {
      assert (q + [c])[1..] == q[1..] + [c];
      CompterApprocheAjout(q[1..], c, d);
    }
  }

  /** The waiting band lies inside the approach band, for every direction. */
  lemma AttenteDansApproche(c: VueVoiture, d: Dir)
    ensures DansZoneAttente(c, d) ==> DansZoneApproche(c, d)
  {
  }

  lemma {:induction false} AttenteAuPlusApproche(q: seq<VueVoiture>, d: Dir)
    ensures CompterAttente(q, d) <= CompterApproche(q, d)
  {
    if q != [] {
      AttenteDansApproche(q[0], d);
      AttenteAuPlusApproche(q[1..], d);
    }
  }

  /** Per axis, the waiting count never exceeds the approaching count. */
  lemma AttenteAuPlusApprochantAxes(f: Files)
    ensures CompterEnAttenteNS(f) <= CompterApprochantNS(f)
    ensures CompterEnAttenteEO(f) <= CompterApprochantEO(f)
  {
    AttenteAuPlusApproche(f.nord, N);
    AttenteAuPlusApproche(f.sud, S);
    AttenteAuPlusApproche(f.est, E);
    AttenteAuPlusApproche(f.ouest, O);
  }

  /** A vehicle waiting at the stop line counts twice in the axis demand. */
  lemma DoubleComptage(c: VueVoiture)
    requires DansZoneAttente(c, N)
    ensures DemandeNS(Files([c], [], [], [])) == 2
  {
    assert [c][1..] == [];
  }

  // ---------------------------------------------------------------------------
  // Ambulance presence (detecter_ambulance_active)
  // ---------------------------------------------------------------------------

  function ContientAmbulance(q: seq<VueVoiture>): (r: bool)
    ensures r <==> exists k :: 0 <= k < |q| && q[k].estAmbulance
  {
    if q == [] then false
    else q[0].estAmbulance || ContientAmbulance(q[1..])
  }

  /** The first queue, in the order N, S, E, O, that holds an ambulance anywhere. */
  function AmbulanceActive(f: Files): (r: Option<Dir>)
    ensures r.Some? ==> ContientAmbulance(f.File(r.value))
    ensures r.Some? ==> forall d :: Rang(d) < Rang(r.value) ==> !ContientAmbulance(f.File(d))
    ensures r.None? ==> forall d :: !ContientAmbulance(f.File(d))
  {
    if ContientAmbulance(f.nord) then Some(N)
    else if ContientAmbulance(f.sud) then Some(S)
    else if ContientAmbulance(f.est) then Some(E)
    else if ContientAmbulance(f.ouest) then Some(O)
    else None
  }

  // ---------------------------------------------------------------------------
  // Central zone, occupancy check and ambulance motion rule
  // ---------------------------------------------------------------------------

  /**
   * The central-zone test the source applies to a vehicle of queue `d`: on y
   * for the North and South queues, on x for the East and West queues.
   */
  function DansZoneCentrale(c: VueVoiture, d: Dir): (r: bool)
    ensures r <==> -ZONE_INTERSECTION_DEMI_HAUTEUR <= DistanceAuCentre(c, d) <= ZONE_INTERSECTION_DEMI_HAUTEUR
  {
    if AxeNS(d) then
      CENTRE_Y - ZONE_INTERSECTION_DEMI_HAUTEUR <= c.y <= CENTRE_Y + ZONE_INTERSECTION_DEMI_HAUTEUR
    else
      CENTRE_X - ZONE_INTERSECTION_DEMI_LARGEUR <= c.x <= CENTRE_X + ZONE_INTERSECTION_DEMI_LARGEUR
  }

  function AucuneVoitureDansZone(q: seq<VueVoiture>, d: Dir): (r: bool)
    ensures r <==> forall k :: 0 <= k < |q| && !q[k].estAmbulance ==> !DansZoneCentrale(q[k], d)
  {
    if q == [] then true
    else (q[0].estAmbulance || !DansZoneCentrale(q[0], d)) && AucuneVoitureDansZone(q[1..], d)
  }

  /**
   * `intersection_est_securisee_pour_ambulance`: no ordinary vehicle of any
   * queue is in the central zone. (The source's direction argument is unused.)
   */
  function IntersectionSecurisee(f: Files): (r: bool)
    ensures r <==> forall d :: AucuneVoitureDansZone(f.File(d), d)
  {
    ToutesDirections(f);
    AucuneVoitureDansZone(f.nord, N) && AucuneVoitureDansZone(f.sud, S)
    && AucuneVoitureDansZone(f.est, E) && AucuneVoitureDansZone(f.ouest, O)
  }

  lemma ToutesDirections(f: Files)
    ensures (forall d :: AucuneVoitureDansZone(f.File(d), d))
            <==> AucuneVoitureDansZone(f.nord, N) && AucuneVoitureDansZone(f.sud, S)
                 && AucuneVoitureDansZone(f.est, E) && AucuneVoitureDansZone(f.ouest, O)
  {
    if AucuneVoitureDansZone(f.nord, N) && AucuneVoitureDansZone(f.sud, S)
       && AucuneVoitureDansZone(f.est, E) && AucuneVoitureDansZone(f.ouest, O) {
      forall d ensures AucuneVoitureDansZone(f.File(d), d) {
        match d
        case N =>
        case S =>
        case E =>
        case O =>
      }
    } else {
      assert !AucuneVoitureDansZone(f.File(N), N) || !AucuneVoitureDansZone(f.File(S), S)
             || !AucuneVoitureDansZone(f.File(E), E) || !AucuneVoitureDansZone(f.File(O), O);
    }
  }

  /** What the heads tell the vehicle manager: which are green and where pedestrians cross. */
  datatype Signaux = Signaux(vertN: bool, vertS: bool, vertE: bool, vertO: bool,
                             pietonN: bool, pietonS: bool, pietonE: bool, pietonO: bool)
  {
    function Vert(d: Dir): bool
    {
      match d
      case N => vertN
      case S => vertS
      case E => vertE
      case O => vertO
    }

    /** The crossings a vehicle of queue `d` must respect: its own axis's pair of heads. */
    function PietonsSurAxe(d: Dir): bool
    {
      if AxeNS(d) then pietonN || pietonS else pietonE || pietonO
    }
  }

  /** Distance still to cover before the centre, for a vehicle of queue `d`. */
  function DistanceAuCentre(c: VueVoiture, d: Dir): real
  {
    match d
    case N => CENTRE_Y - c.y
    case S => c.y - CENTRE_Y
    case E => c.x - CENTRE_X
    case O => CENTRE_X - c.x
  }

  /** `peut_ambulance_avancer` for an ambulance of queue `d`. */
  function PeutAmbulanceAvancer(c: VueVoiture, d: Dir, sig: Signaux, f: Files): (r: bool)
    ensures DistanceAuCentre(c, d) > 170.0 ==> r
    ensures DistanceAuCentre(c, d) <= 170.0 && sig.PietonsSurAxe(d) ==> r == (DistanceAuCentre(c, d) > 190.0)
    ensures DistanceAuCentre(c, d) <= 170.0 && !sig.PietonsSurAxe(d) ==> r == IntersectionSecurisee(f)
  {
    var zoneProche := 170.0;
    match d
    case N =>
      if c.y < CENTRE_Y - zoneProche then true
      else if sig.pietonN || sig.pietonS then c.y < CENTRE_Y - zoneProche - 20.0
      else IntersectionSecurisee(f)
    case S =>
      if c.y > CENTRE_Y + zoneProche then true
      else if sig.pietonN || sig.pietonS then c.y > CENTRE_Y + zoneProche + 20.0
      else IntersectionSecurisee(f)
    case E =>
      if c.x > CENTRE_X + zoneProche then true
      else if sig.pietonE || sig.pietonO then c.x > CENTRE_X + zoneProche + 20.0
      else IntersectionSecurisee(f)
    case O =>
      if c.x < CENTRE_X - zoneProche then true
      else if sig.pietonE || sig.pietonO then c.x < CENTRE_X - zoneProche - 20.0
      else IntersectionSecurisee(f)
  }

  /**
   * The 20 px margin never lets an ambulance through: that test is reached
   * only within 170 px, so an ambulance near a crossing in use always holds.
   */
  lemma MargePietonInoperante(c: VueVoiture, d: Dir, sig: Signaux, f: Files)
    requires DistanceAuCentre(c, d) <= 170.0 && sig.PietonsSurAxe(d)
    ensures !PeutAmbulanceAvancer(c, d, sig, f)
  {
  }

  // ---------------------------------------------------------------------------
  // Collision search (detecter_collisions)
  // ---------------------------------------------------------------------------

  /** An entry of the zone list: the queue, the index in it, and the vehicle. */
  datatype Entree = Entree(d: Dir, k: nat, c: VueVoiture)

  predicate EntreeDe(f: Files, e: Entree)
  {
    e.k < |f.File(e.d)| && f.File(e.d)[e.k] == e.c && DansZoneCentrale(e.c, e.d)
  }

  /** The zone entries of queue `q` from index `i` on, in queue order. */
  function EntreesDansZone(q: seq<VueVoiture>, d: Dir, i: nat): (r: seq<Entree>)
    requires i <= |q|
    ensures forall m :: 0 <= m < |r| ==> r[m].d == d && i <= r[m].k < |q| && q[r[m].k] == r[m].c && DansZoneCentrale(r[m].c, d)
    ensures forall m, n :: 0 <= m < n < |r| ==> r[m].k < r[n].k
    ensures forall k :: i <= k < |q| && DansZoneCentrale(q[k], d) ==> Entree(d, k, q[k]) in r
    decreases |q| - i
  {
    if i == |q| then []
    else if DansZoneCentrale(q[i], d) then [Entree(d, i, q[i])] + EntreesDansZone(q, d, i + 1)
    else EntreesDansZone(q, d, i + 1)
  }

  /** The zone list in collection order: North, South, East then West entries. */
  function ListeZone(f: Files): (z: seq<Entree>)
    ensures forall m :: 0 <= m < |z| ==> EntreeDe(f, z[m])
    ensures forall d, k :: 0 <= k < |f.File(d)| && DansZoneCentrale(f.File(d)[k], d) ==> Entree(d, k, f.File(d)[k]) in z
    ensures EnOrdre(z)
  {
    var zn := EntreesDansZone(f.nord, N, 0);
    var zs := EntreesDansZone(f.sud, S, 0);
    var ze := EntreesDansZone(f.est, E, 0);
    var zo := EntreesDansZone(f.ouest, O, 0);
    AjoutEnOrdre(zn, zs, S);
    AjoutEnOrdre(zn + zs, ze, E);
    AjoutEnOrdre(zn + zs + ze, zo, O);
    zn + zs + ze + zo
  }

  /**
   * Collection order of the zone list: directions in the order N, S, E, O,
   * and inside one direction increasing queue index.
   */
  predicate EnOrdre(z: seq<Entree>)
  {
    forall m, n :: 0 <= m < n < |z| ==> Rang(z[m].d) <= Rang(z[n].d) && (z[m].d == z[n].d ==> z[m].k < z[n].k)
  }

  /** Appending the entries of a later direction, in queue order, keeps the collection order. */
  lemma AjoutEnOrdre(a: seq<Entree>, b: seq<Entree>, d: Dir)
    requires forall m, n :: 0 <= m < n < |a| ==> Rang(a[m].d) <= Rang(a[n].d) && (a[m].d == a[n].d ==> a[m].k < a[n].k)
    requires forall m :: 0 <= m < |a| ==> Rang(a[m].d) < Rang(d)
    requires forall m :: 0 <= m < |b| ==> b[m].d == d
    requires forall m, n :: 0 <= m < n < |b| ==> b[m].k < b[n].k
    ensures EnOrdre(a + b)
    ensures forall m :: 0 <= m < |a + b| ==> Rang((a + b)[m].d) <= Rang(d)
  {
    var z := a + b;
    forall m, n | 0 <= m < n < |z|
      ensures Rang(z[m].d) <= Rang(z[n].d) && (z[m].d == z[n].d ==> z[m].k < z[n].k)
    {
      if n < |a| {
        assert z[m] == a[m] && z[n] == a[n];
      } else if m < |a| {
        assert z[m] == a[m] && z[n] == b[n - |a|];
      } else {
        assert z[m] == b[m - |a|] && z[n] == b[n - |a|];
      }
    }
  }

  /** Bounding boxes overlap: |dx| < 35 and |dy| < 30. */
  function Proches(a: VueVoiture, b: VueVoiture): (r: bool)
    ensures r <==> -35.0 < a.x - b.x < 35.0 && -30.0 < a.y - b.y < 30.0
  {
    (if a.x >= b.x then a.x - b.x else b.x - a.x) < SEUIL_COLLISION_X
    && (if a.y >= b.y then a.y - b.y else b.y - a.y) < SEUIL_COLLISION_Y
  }

  /** Pair (m, n) of the zone list comes strictly before pair (i, j) in the nested-loop order. */
  predicate AvantPaire(m: nat, n: nat, i: nat, j: nat)
  {
    m < i || (m == i && n < j)
  }

  /**
   * The nested scan from pair (i, j) on: the first pair (m, n), m < n, whose
   * vehicles are close, as indices into the zone list.
   */
  function ChercherPaire(z: seq<Entree>, i: nat, j: nat): (r: Option<(nat, nat)>)
    requires i < j
    ensures r.Some? ==> r.value.0 < r.value.1 < |z| && Proches(z[r.value.0].c, z[r.value.1].c)
    ensures r.Some? ==> !AvantPaire(r.value.0, r.value.1, i, j)
    ensures forall m, n :: 0 <= m < n < |z| && !AvantPaire(m, n, i, j)
              && (r.None? || AvantPaire(m, n, r.value.0, r.value.1))
              ==> !PaireProche(z, m, n)
    decreases |z| - i, |z| - j
  {
    if i >= |z| then None
    else if j >= |z| then ChercherPaire(z, i + 1, i + 2)
    else if Proches(z[i].c, z[j].c) then Some((i, j))
    else ChercherPaire(z, i, j + 1)
  }

  /**
   * `detecter_collisions` without its accident guard: the first close pair of
   * the zone list, same-direction pairs included.
   */
  function PremiereCollision(f: Files): (r: Option<(Entree, Entree)>)
    ensures r.Some? ==> EntreeDe(f, r.value.0) && EntreeDe(f, r.value.1)
    ensures r.Some? ==> Proches(r.value.0.c, r.value.1.c)
    ensures r.Some? ==> exists m: nat, n: nat :: PremierePaire(ListeZone(f), m, n)
                                                && ListeZone(f)[m] == r.value.0 && ListeZone(f)[n] == r.value.1
    ensures r.None? ==> AucunePaireProche(ListeZone(f))
  {
    var z := ListeZone(f);
    var p := ChercherPaire(z, 0, 1);
    if p.None? then None
    else
      var (m, n) := p.value;
      PremiereTrouvee(z, m, n);
      assert PremierePaire(ListeZone(f), m, n) && ListeZone(f)[m] == z[m] && ListeZone(f)[n] == z[n];
      Some((z[m], z[n]))
  }

  /** The pair the nested scan finds from the start is the first close pair. */
  lemma PremiereTrouvee(z: seq<Entree>, m: nat, n: nat)
    requires ChercherPaire(z, 0, 1) == Some((m, n))
    ensures PremierePaire(z, m, n)
  {
  }

  /** Pair (m, n) of the zone list is close and no pair before it in the nested-loop order is. */
  predicate PremierePaire(z: seq<Entree>, m: nat, n: nat)
  {
    m < n < |z| && PaireProche(z, m, n)
    && forall m', n' :: 0 <= m' < n' < |z| && AvantPaire(m', n', m, n) ==> !PaireProche(z, m', n')
  }

  predicate AucunePaireProche(z: seq<Entree>)
  {
    forall m, n :: 0 <= m < n < |z| ==> !PaireProche(z, m, n)
  }

  predicate PaireProche(z: seq<Entree>, m: nat, n: nat)
    requires m < n < |z|
  {
    Proches(z[m].c, z[n].c)
  }

  /** Two vehicles of the same queue, both in the zone and close, are reported as a collision. */
  lemma CollisionMemeFile(a: VueVoiture, b: VueVoiture)
    requires DansZoneCentrale(a, N) && DansZoneCentrale(b, N) && Proches(a, b)
    ensures PremiereCollision(Files([a, b], [], [], [])) == Some((Entree(N, 0, a), Entree(N, 1, b)))
  {
    var f := Files([a, b], [], [], []);
    assert EntreesDansZone(f.nord, N, 2) == [];
    assert EntreesDansZone(f.nord, N, 1) == [Entree(N, 1, b)];
    assert ListeZone(f) == [Entree(N, 0, a), Entree(N, 1, b)];
  }
}
