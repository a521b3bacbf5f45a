/**
 * The weather state (feu_tricolore/meteo.py): two states, a toggle, and the
 * speed and safety-distance factors. The source's global singleton becomes an
 * object held by the simulation whose state is passed explicitly to the code
 * that reads it.
 */
module Meteo {

  datatype Etat = Normal | Pluie

  /** The state `toggle` moves to. */
  function Basculer(e: Etat): (r: Etat)
    ensures r != e
  {
    if e.Normal? then Pluie else Normal
  }

  /** Speed factor: 0.7 in the rain, 1.0 otherwise (exact reals, not IEEE floats). */
  function FacteurVitesse(e: Etat): (f: real)
    ensures f == 0.7 <==> e.Pluie?
    ensures f == 1.0 <==> e.Normal?
  {
    if e.Pluie? then 0.7 else 1.0
  }

  /** Safety-distance factor: 1.2 in the rain, 1.0 otherwise. */
  function FacteurDistanceSecurite(e: Etat): (f: real)
    ensures f == 1.2 <==> e.Pluie?
    ensures f == 1.0 <==> e.Normal?
  {
    if e.Pluie? then 1.2 else 1.0
  }

  /** `est_pluie`: it is raining exactly when a toggle would bring normal weather. */
  function EstPluie(e: Etat): (r: bool)
    ensures r <==> Basculer(e) == Normal
    ensures r <==> FacteurDistanceSecurite(e) == 1.2
  {
    e.Pluie?
  }

  /** `est_normal`: the weather is normal exactly when a toggle would bring rain. */
  function EstNormal(e: Etat): (r: bool)
    ensures r <==> Basculer(e) == Pluie
    ensures r <==> FacteurDistanceSecurite(e) == 1.0
  {
    e.Normal?
  }

  /** Exactly one of `est_pluie` and `est_normal` holds. */
  lemma ExactementUnEtat(e: Etat)
    ensures EstPluie(e) != EstNormal(e)
  {
  }

  /** Two toggles restore the original state. */
  lemma BasculerDeuxFois(e: Etat)
    ensures Basculer(Basculer(e)) == e
  {
  }

  class Meteo {
    var etat: Etat

    constructor ()
      ensures etat == Normal
    {
      etat := Normal;
    }

    method SetPluie()
      modifies this
      ensures etat == Pluie
    {
      etat := Pluie;
    }

    method SetNormal()
      modifies this
      ensures etat == Normal
    {
      etat := Normal;
    }

    /** Flips the state and returns the new one. */
    method Toggle() returns (nouvelEtat: Etat)
      modifies this
      ensures etat == Basculer(old(etat))
      ensures nouvelEtat == etat
    {
      if etat == Normal {
        etat := Pluie;
      } else {
        etat := Normal;
      }
      nouvelEtat := etat;
    }
  }
}
