/**
 * The per-direction demand generator (feu_tricolore/trafic.py). Every
 * `random.*` draw of the source is a parameter here, with the draw's range as
 * a precondition.
 */
module Trafic {

  /** The three draws `simuler_trafic` makes: `randint(1, 10)`, `random()` and `randint(1, 3)`. */
  datatype Tirage = Tirage(niveau: int, alea: real, nombre: int)
  {
    predicate Valide()
    {
      1 <= niveau <= 10 && 0.0 <= alea < 1.0 && 1 <= nombre <= 3
    }
  }

  class Trafic {
    const sens: string
    var niveau: int
    var demandePieton: bool
    var urgence: bool
    var compteurVehicules: int

    constructor (sens: string)
      ensures this.sens == sens
      ensures niveau == 0 && !demandePieton && !urgence && compteurVehicules == 0
    {
      this.sens := sens;
      niveau := 0;
      demandePieton := false;
      urgence := false;
      compteurVehicules := 0;
    }

    /** A new demand level in 1..10; with probability 0.3, one to three more vehicles counted. */
    method SimulerTrafic(t: Tirage)
      requires t.Valide()
      modifies this`niveau, this`compteurVehicules
      ensures niveau == t.niveau && 1 <= niveau <= 10
      ensures compteurVehicules == old(compteurVehicules) + (if t.alea < 0.3 then t.nombre else 0)
      ensures compteurVehicules == old(compteurVehicules)
           || old(compteurVehicules) + 1 <= compteurVehicules <= old(compteurVehicules) + 3
    {
      niveau := t.niveau;
      if t.alea < 0.3 {
        compteurVehicules := compteurVehicules + t.nombre;
      }
    }

    /** Raises the pedestrian flag with the given probability; never lowers it. */
    method SimulerPieton(alea: real, probabilite: real := 0.1) returns (demandee: bool)
      requires 0.0 <= alea < 1.0
      modifies this`demandePieton
      ensures demandee <==> alea < probabilite
      ensures demandePieton == (old(demandePieton) || demandee)
      ensures old(demandePieton) ==> demandePieton
    {
      demandee := alea < probabilite;
      if demandee {
        demandePieton := true;
      }
    }

    /** Overwrites the emergency flag with the outcome of the draw. */
    method SimulerUrgence(alea: real, probabilite: real := 0.05)
      requires 0.0 <= alea < 1.0
      modifies this`urgence
      ensures urgence <==> alea < probabilite
    {
      urgence := alea < probabilite;
    }
  }
}
