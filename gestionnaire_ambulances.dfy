/**
 * The ambulance manager (feu_tricolore/gestionnaire_ambulances.py): it detects
 * an ambulance approaching the junction, records which axis has priority and
 * the phase to come back to, notices when the ambulance has gone through, and
 * spawns ambulances on request. The manager's centre is the screen centre.
 */
module GestionnaireAmbulances {
  import opened Options
  import opened Constantes
  import opened Voiture
  import opened Voies
  import opened GestionnaireVoitures

  /**
   * The detection band of queue `d`: from `DISTANCE_DETECTION_AMBULANCE`
   * before the centre up to the entrance of the junction, 140 from the centre,
   * both bounds excluded.
   */
  function DansBandeDetection(c: VueVoiture, d: Dir): (r: bool)
    ensures r <==> 140.0 < DistanceAuCentre(c, d) < DISTANCE_DETECTION_AMBULANCE
  {
    match d
    case N => CENTRE_Y - DISTANCE_DETECTION_AMBULANCE < c.y < CENTRE_Y - 140.0
    case S => CENTRE_Y + 140.0 < c.y < CENTRE_Y + DISTANCE_DETECTION_AMBULANCE
    case E => CENTRE_X + 140.0 < c.x < CENTRE_X + DISTANCE_DETECTION_AMBULANCE
    case O => CENTRE_X - DISTANCE_DETECTION_AMBULANCE < c.x < CENTRE_X - 140.0
  }

  /** Queue `q` of direction `d` holds an ambulance inside the detection band. */
  function AmbulanceEnBande(q: seq<VueVoiture>, d: Dir): (r: bool)
    ensures r <==> exists k :: 0 <= k < |q| && q[k].estAmbulance && DansBandeDetection(q[k], d)
  {
    if q == [] then false
    else (q[0].estAmbulance && DansBandeDetection(q[0], d)) || AmbulanceEnBande(q[1..], d)
  }

  /**
   * What `detecter_ambulance_approchant` finds: nothing in emergency mode;
   * otherwise the first direction, in the order N, S, E, O, whose queue holds
   * an ambulance in its detection band.
   */
  function AmbulanceApprochante(f: Files, modeUrgence: bool): (r: Option<Dir>)
    ensures modeUrgence ==> r.None?
    ensures r.Some? ==> AmbulanceEnBande(f.File(r.value), r.value)
    ensures r.Some? ==> forall d :: Rang(d) < Rang(r.value) ==> !AmbulanceEnBande(f.File(d), d)
    ensures r.None? && !modeUrgence ==> forall d :: !AmbulanceEnBande(f.File(d), d)
  {
    if modeUrgence then None
    else if AmbulanceEnBande(f.nord, N) then Some(N)
    else if AmbulanceEnBande(f.sud, S) then Some(S)
    else if AmbulanceEnBande(f.est, E) then Some(E)
    else if AmbulanceEnBande(f.ouest, O) then Some(O)
    else None
  }

  /**
   * An ambulance of queue `d` that has not yet reached the mark 200 beyond
   * the centre on the far side of the junction.
   */
  function PasEncorePassee(c: VueVoiture, d: Dir): (r: bool)
    ensures r <==> c.estAmbulance && DistanceAuCentre(c, d) > -200.0
  {
    c.estAmbulance &&
    match d
    case N => c.y < CENTRE_Y + 200.0
    case S => c.y > CENTRE_Y - 200.0
    case E => c.x > CENTRE_X - 200.0
    case O => c.x < CENTRE_X + 200.0
  }

  /** Queue `q` of direction `d` still holds an ambulance short of the far-side mark. */
  ghost function EncorePresente(q: seq<VueVoiture>, d: Dir): (r: bool)
    ensures r <==> exists k :: 0 <= k < |q| && q[k].estAmbulance && DistanceAuCentre(q[k], d) > -200.0
  {
    exists k :: 0 <= k < |q| && PasEncorePassee(q[k], d)
  }

  /** The direction tag of a spawn request: "N", "S" and "E" name theirs, anything else is West. */
  function DirDeTag(t: string): (d: Dir)
    ensures t == "N" <==> d == N
    ensures t == "S" <==> d == S
    ensures t == "E" <==> d == E
    ensures d == O <==> t != "N" && t != "S" && t != "E"
  {
    if t == "N" then N else if t == "S" then S else if t == "E" then E else O
  }

  /** An ambulance freshly spawned at the entry point of direction `d`. */
  function AmbulanceApparue(d: Dir): (c: VueVoiture)
    ensures c.direction == d && c.estAmbulance
    ensures c.x == PointApparition(d).x && c.y == PointApparition(d).y
    ensures !DansBandeDetection(c, d) && PasEncorePassee(c, d)
  {
    PointApparition(d).(estAmbulance := true)
  }

  class GestionnaireAmbulances {
    var compteurAmbulances: nat
    var ambulanceActive: Option<Dir>
    var phaseAvantAmbulance: Option<Phase>

    /** The saved phase is only held while an ambulance has priority. */
    predicate Valid()
      reads this
    {
      ambulanceActive.None? ==> phaseAvantAmbulance.None?
    }

    constructor ()
      ensures Valid()
      ensures compteurAmbulances == 0 && ambulanceActive.None? && phaseAvantAmbulance.None?
    {
      compteurAmbulances := 0;
      ambulanceActive := None;
      phaseAvantAmbulance := None;
    }

    /**
     * `activer_priorite_ambulance`: a repeated request for the axis already
     * active is ignored; otherwise the direction becomes active and is
     * returned, and the current phase is saved only on the first activation.
     */
    method ActiverPrioriteAmbulance(d: Dir, phaseActuelle: Phase) returns (r: Option<Dir>)
      requires Valid()
      modifies this
      ensures Valid()
      ensures old(ambulanceActive) == Some(d) ==>
                r.None? && ambulanceActive == old(ambulanceActive) && phaseAvantAmbulance == old(phaseAvantAmbulance)
      ensures old(ambulanceActive) != Some(d) ==> r == Some(d) && ambulanceActive == Some(d)
      ensures old(ambulanceActive).None? ==> phaseAvantAmbulance == Some(phaseActuelle)
      ensures old(ambulanceActive).Some? ==> phaseAvantAmbulance == old(phaseAvantAmbulance)
      ensures compteurAmbulances == old(compteurAmbulances)
    {
      if ambulanceActive == Some(d) {
        return None;
      }
      if ambulanceActive.None? {
        phaseAvantAmbulance := Some(phaseActuelle);
      }
      ambulanceActive := Some(d);
      r := Some(d);
    }

    /**
     * `detecter_ambulance_approchant` on the queues `f`: nothing in emergency
     * mode; otherwise scans the North, South, East and West queues in turn and
     * reports the first direction holding an ambulance inside its detection band.
     */
    method DetecterAmbulanceApprochant(f: Files, modeUrgence: bool) returns (r: Option<Dir>)
      ensures r == AmbulanceApprochante(f, modeUrgence)
    {
      if modeUrgence {
        return None;
      }
      for i := 0 to |f.nord|
        invariant forall k :: 0 <= k < i ==> !(f.nord[k].estAmbulance && DansBandeDetection(f.nord[k], N))
      {
        if f.nord[i].estAmbulance && DansBandeDetection(f.nord[i], N) {
          return Some(N);
        }
      }
      for i := 0 to |f.sud|
        invariant forall k :: 0 <= k < i ==> !(f.sud[k].estAmbulance && DansBandeDetection(f.sud[k], S))
      {
        if f.sud[i].estAmbulance && DansBandeDetection(f.sud[i], S) {
          return Some(S);
        }
      }
      for i := 0 to |f.est|
        invariant forall k :: 0 <= k < i ==> !(f.est[k].estAmbulance && DansBandeDetection(f.est[k], E))
      {
        if f.est[i].estAmbulance && DansBandeDetection(f.est[i], E) {
          return Some(E);
        }
      }
      for i := 0 to |f.ouest|
        invariant forall k :: 0 <= k < i ==> !(f.ouest[k].estAmbulance && DansBandeDetection(f.ouest[k], O))
      {
        if f.ouest[i].estAmbulance && DansBandeDetection(f.ouest[i], O) {
          return Some(O);
        }
      }
      return None;
    }

    /**
     * `verifier_ambulance_passee` on the queues `f`: with an active direction,
     * scans its queue and, once no ambulance there is short of the far-side
     * mark, clears the active direction and the saved phase.
     */
    method VerifierAmbulancePassee(f: Files) returns (passee: bool)
      requires Valid()
      modifies this
      ensures Valid()
      ensures old(ambulanceActive).None? ==> !passee && ambulanceActive.None? && phaseAvantAmbulance == old(phaseAvantAmbulance)
      ensures old(ambulanceActive).Some? ==>
                (passee <==> !EncorePresente(f.File(old(ambulanceActive).value), old(ambulanceActive).value))
      ensures passee ==> ambulanceActive.None? && phaseAvantAmbulance.None?
      ensures !passee ==> ambulanceActive == old(ambulanceActive) && phaseAvantAmbulance == old(phaseAvantAmbulance)
      ensures compteurAmbulances == old(compteurAmbulances)
    {
      if ambulanceActive.None? {
        return false;
      }
      var d := ambulanceActive.value;
      var q := f.File(d);
      passee := true;
      var i := 0;
      while i < |q|
        invariant 0 <= i <= |q|
        invariant passee <==> forall k :: 0 <= k < i ==> !PasEncorePassee(q[k], d)
        invariant !passee ==> EncorePresente(q, d)
        decreases if passee then |q| - i else 0
      {
        if PasEncorePassee(q[i], d) {
          passee := false;
          break;
        }
        i := i + 1;
      }
      if passee {
        ambulanceActive := None;
        phaseAvantAmbulance := None;
      }
    }

    /**
     * `spawner_ambulance`: appends one ambulance at the entry point of the
     * requested direction (any tag other than "N", "S", "E" means West) to
     * that direction's queue, and counts it.
     */
    method SpawnerAmbulance(direction: string, gv: GestionnaireVoitures) returns (ok: bool)
      requires gv.Valid()
      modifies this`compteurAmbulances, gv
      ensures ok
      ensures gv.Valid()
      ensures var d := DirDeTag(direction);
              |gv.File(d)| == |old(gv.File(d))| + 1 && gv.File(d)[..|old(gv.File(d))|] == old(gv.File(d))
              && fresh(gv.File(d)[|old(gv.File(d))|])
              && gv.File(d)[|old(gv.File(d))|].Vue() == AmbulanceApparue(d)
      ensures forall d :: d != DirDeTag(direction) ==> gv.File(d) == old(gv.File(d))
      ensures compteurAmbulances == old(compteurAmbulances) + 1
      ensures ambulanceActive == old(ambulanceActive) && phaseAvantAmbulance == old(phaseAvantAmbulance)
      ensures gv.tempsSpawnVoiture == old(gv.tempsSpawnVoiture) && gv.modeUrgence == old(gv.modeUrgence)
      ensures gv.accidentActif == old(gv.accidentActif) && gv.compteurAccidents == old(gv.compteurAccidents)
      ensures gv.ambulanceDirectionActive == old(gv.ambulanceDirectionActive)
    {
      var d := DirDeTag(direction);
      var p := PointApparition(d);
      var ambulance := new Voiture(p.x, p.y, d, true);
      compteurAmbulances := compteurAmbulances + 1;
      gv.Ajouter(ambulance);
      ok := true;
    }
  }
}
