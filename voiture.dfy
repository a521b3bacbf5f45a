/**
 * A vehicle (feu_tricolore/voiture.py): a position, a direction of travel, an
 * ambulance flag and a base speed. `deplacer` moves it along one axis only.
 * Drawing and siren sound are not modelled.
 */
module Voiture {
  import opened Constantes
  import Meteo

  /** The observable state of a vehicle, as the scans of the managers read it. */
  datatype VueVoiture = VueVoiture(x: real, y: real, direction: Dir, estAmbulance: bool)

  /** Base speed: ambulances are faster. */
  function VitesseBase(estAmbulance: bool): (v: real)
    ensures v > 0.0
    ensures estAmbulance <==> v == 5.0
    ensures !estAmbulance <==> v == 3.0
  {
    if estAmbulance then 5.0 else 3.0
  }

  /** Effective speed: the base speed scaled by the weather's speed factor. */
  function Vitesse(estAmbulance: bool, meteo: Meteo.Etat): (v: real)
    ensures 0.0 < v <= VitesseBase(estAmbulance)
    ensures meteo.Normal? ==> v == VitesseBase(estAmbulance)
    ensures meteo.Pluie? ==> v == 0.7 * VitesseBase(estAmbulance)
  {
    VitesseBase(estAmbulance) * Meteo.FacteurVitesse(meteo)
  }

  /** Distance covered along the direction of travel (grows as the vehicle advances). */
  function Avancement(c: VueVoiture): real
  {
    match c.direction
    case N => c.y
    case S => -c.y
    case E => -c.x
    case O => c.x
  }

  /** The coordinate across the direction of travel. */
  function Transversal(c: VueVoiture): real
  {
    match c.direction
    case N => c.x
    case S => c.x
    case E => c.y
    case O => c.y
  }

  /** What one call of `deplacer(peut_avancer)` does to a vehicle moving at speed `v`. */
  function Deplacee(c: VueVoiture, peutAvancer: bool, v: real): (r: VueVoiture)
    ensures r.direction == c.direction && r.estAmbulance == c.estAmbulance
    ensures !peutAvancer ==> r == c
    ensures peutAvancer ==> Avancement(r) == Avancement(c) + v
    ensures Transversal(r) == Transversal(c)
  {
    if !peutAvancer then c
    else match c.direction
      case N => c.(y := c.y + v)
      case S => c.(y := c.y - v)
      case E => c.(x := c.x - v)
      case O => c.(x := c.x + v)
  }

  /** A run of `deplacer` calls, one per decision, at a fixed speed. */
  function DeplaceeSuite(c: VueVoiture, decisions: seq<bool>, v: real): VueVoiture
    decreases |decisions|
  {
    if decisions == [] then c
    else DeplaceeSuite(Deplacee(c, decisions[0], v), decisions[1..], v)
  }

  /** With a positive speed, repeated moves never take a vehicle backwards nor off its lane. */
  lemma {:induction false} JamaisEnArriere(c: VueVoiture, decisions: seq<bool>, v: real)
    requires v > 0.0
    ensures Avancement(DeplaceeSuite(c, decisions, v)) >= Avancement(c)
    ensures Transversal(DeplaceeSuite(c, decisions, v)) == Transversal(c)
    ensures DeplaceeSuite(c, decisions, v).direction == c.direction
    decreases |decisions|
  {
    if decisions != [] {
      JamaisEnArriere(Deplacee(c, decisions[0], v), decisions[1..], v);
    }
  }

  /** `est_hors_zone`: outside the screen extended by a margin on every side. */
  function EstHorsZone(c: VueVoiture, largeurEcran: real, hauteurEcran: real, marge: real := 50.0): (r: bool)
    ensures !r <==> (-marge <= c.x <= largeurEcran + marge && -marge <= c.y <= hauteurEcran + marge)
  {
    c.x < -marge || c.x > largeurEcran + marge || c.y < -marge || c.y > hauteurEcran + marge
  }

  class Voiture {
    var x: real
    var y: real
    const direction: Dir
    const estAmbulance: bool
    const vitesseBase: real := VitesseBase(estAmbulance)

    constructor (x0: real, y0: real, direction: Dir, estAmbulance: bool := false)
      ensures Vue() == VueVoiture(x0, y0, direction, estAmbulance)
    {
      this.x := x0;
      this.y := y0;
      this.direction := direction;
      this.estAmbulance := estAmbulance;
    }

    function Vue(): VueVoiture
      reads this
    {
      VueVoiture(x, y, direction, estAmbulance)
    }

    /** The `vitesse` property, with the weather passed in. */
    function VitesseEffective(meteo: Meteo.Etat): (v: real)
      ensures v == Vitesse(estAmbulance, meteo)
    {
      vitesseBase * Meteo.FacteurVitesse(meteo)
    }

    /** Moves one step along the direction of travel when allowed. */
    method Deplacer(peutAvancer: bool, meteo: Meteo.Etat)
      modifies this
      ensures Vue() == Deplacee(old(Vue()), peutAvancer, Vitesse(estAmbulance, meteo))
    {
      if peutAvancer {
        var v := VitesseEffective(meteo);
        match direction
        case N => y := y + v;
        case S => y := y - v;
        case E => x := x - v;
        case O => x := x + v;
      }
    }
  }
}
