/**
 * Geometry and timing values of the intersection (feu_tricolore/constants.py),
 * and the closed enumerations that stand for the source's direction tags and
 * phase strings.
 */
module Constantes {

  /** The four approach directions ("N", "S", "E", "O" in the source). */
  datatype Dir = N | S | E | O

  /** The two axes; opposing directions share one. */
  predicate AxeNS(d: Dir) { d == N || d == S }

  /** One value per approach direction. */
  datatype ParDirection<T> = ParDirection(n: T, s: T, e: T, o: T)
  {
    function Get(d: Dir): T
    {
      match d
      case N => n
      case S => s
      case E => e
      case O => o
    }

    function Avec(d: Dir, v: T): (r: ParDirection<T>)
      ensures r.Get(d) == v
      ensures forall d' :: d' != d ==> r.Get(d') == Get(d')
    {
      match d
      case N => this.(n := v)
      case S => this.(s := v)
      case E => this.(e := v)
      case O => this.(o := v)
    }
  }

  /** The order in which the source scans the four queues: N, S, E, O. */
  function Rang(d: Dir): nat
  {
    match d
    case N => 0
    case S => 1
    case E => 2
    case O => 3
  }

  /** The direction of rank `k` in the order N, S, E, O. */
  function DirDeRang(k: nat): (d: Dir)
    requires k < 4
    ensures Rang(d) == k
  {
    if k == 0 then N else if k == 1 then S else if k == 2 then E else O
  }

  /** The named phases of the controller ("NS_VERT", "NS_ORANGE", "EO_VERT", "EO_ORANGE"). */
  datatype Phase = NsVert | NsOrange | EoVert | EoOrange

  // Window and intersection centre.
  const LARGEUR: real := 1600.0
  const HAUTEUR: real := 900.0
  const CENTRE_X: real := 500.0
  const CENTRE_Y: real := 450.0

  // Spawning.
  const INTERVALLE_SPAWN_VOITURES: int := 30
  const PROBABILITE_SPAWN: real := 0.4
  const VOITURES_INITIALES_MIN: nat := 2
  const VOITURES_INITIALES_MAX: nat := 3

  // Spacing and collision thresholds.
  const DISTANCE_SECURITE_VOITURE: real := 50.0
  const SEUIL_COLLISION_X: real := 35.0
  const SEUIL_COLLISION_Y: real := 30.0

  // Central conflict zone (half sizes around the centre).
  const ZONE_INTERSECTION_DEMI_LARGEUR: real := 120.0
  const ZONE_INTERSECTION_DEMI_HAUTEUR: real := 120.0

  // Incidents: a countdown in frames.
  const DUREE_INTERVENTION_ACCIDENT: int := 300

  // Ambulances.
  const DISTANCE_DETECTION_AMBULANCE: real := 300.0

  // Stop-line bands, per direction.
  const ZONE_ARRET_NORD_MIN: real := CENTRE_Y - 170.0
  const ZONE_ARRET_NORD_MAX: real := CENTRE_Y - 160.0
  const ZONE_ARRET_SUD_MIN: real := CENTRE_Y + 140.0
  const ZONE_ARRET_SUD_MAX: real := CENTRE_Y + 170.0
  const ZONE_ARRET_EST_MIN: real := CENTRE_X + 130.0
  const ZONE_ARRET_EST_MAX: real := CENTRE_X + 190.0
  const ZONE_ARRET_OUEST_MIN: real := CENTRE_X - 180.0
  const ZONE_ARRET_OUEST_MAX: real := CENTRE_X - 120.0

  // Demand-counting bands (distances from the centre).
  const ZONE_ATTENTE_NS_MIN: real := 120.0
  const ZONE_ATTENTE_NS_MAX: real := 180.0
  const ZONE_ATTENTE_EO_MIN: real := 120.0
  const ZONE_ATTENTE_EO_MAX: real := 180.0
  const ZONE_APPROCHE_DISTANCE: real := 300.0

  // Spawn points.
  const SPAWN_NORD_X: real := CENTRE_X - 60.0
  const SPAWN_NORD_Y: real := 20.0
  const SPAWN_SUD_X: real := CENTRE_X + 60.0
  const SPAWN_SUD_Y: real := HAUTEUR - 20.0
  const SPAWN_EST_X: real := LARGEUR - 620.0
  const SPAWN_EST_Y: real := CENTRE_Y - 60.0
  const SPAWN_OUEST_X: real := 20.0
  const SPAWN_OUEST_Y: real := CENTRE_Y + 60.0

  // Exit boundaries.
  const LIMITE_SORTIE_NORD: real := HAUTEUR + 50.0
  const LIMITE_SORTIE_SUD: real := -50.0
  const LIMITE_SORTIE_EST: real := -50.0
  const LIMITE_SORTIE_OUEST: real := LARGEUR - 600.0

  // Rolling demand history length.
  const TAILLE_HISTORIQUE_TRAFIC: nat := 30
}
