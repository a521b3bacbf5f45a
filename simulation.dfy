/**
 * The controller of main_gui.py (`SimulationPygame`): it owns the four signal
 * heads, the four demand generators and the two managers, runs the phase
 * logic once per simulated second and the vehicle, ambulance and accident
 * logic once per frame. Window, drawing, sound, messages and the statistics
 * database are not modelled; the clock and every random draw are parameters.
 *
 * Each method is proved against the value-level functions of `Phases`; the
 * class invariant `Valid` carries the signal-safety invariant `Securite`
 * through every operation.
 */
module Simulation {
  import opened Options
  import opened Constantes
  import Feu
  import Trafic
  import Meteo
  import opened Voies
  import opened Phases
  import opened GestionnaireVoitures
  import opened GestionnaireAmbulances

  /** The head named by a pedestrian button ("Nord", "Sud", "Est", "Ouest"); other names select nothing. */
  function DirDeSens(sens: string): (r: Option<Dir>)
    ensures r == Some(N) <==> sens == "Nord"
    ensures r == Some(S) <==> sens == "Sud"
    ensures r == Some(E) <==> sens == "Est"
    ensures r == Some(O) <==> sens == "Ouest"
  {
    if sens == "Nord" then Some(N)
    else if sens == "Sud" then Some(S)
    else if sens == "Est" then Some(E)
    else if sens == "Ouest" then Some(O)
    else None
  }

  /** The phase an ambulance of queue `d` imposes: the green of its own axis. */
  function PhasePrioritaire(d: Dir): (p: Phase)
    ensures AxeNS(d) <==> p == NsVert
    ensures !AxeNS(d) <==> p == EoVert
  {
    if AxeNS(d) then NsVert else EoVert
  }

  /**
   * An ambulance inside its detection band has not yet passed the far-side
   * mark, so a detected ambulance is never released in the same frame.
   */
  lemma DetecteeEncorePresente(q: seq<Voiture.VueVoiture>, d: Dir)
    requires AmbulanceEnBande(q, d)
    ensures EncorePresente(q, d)
  {
    var k :| 0 <= k < |q| && q[k].estAmbulance && DansBandeDetection(q[k], d);
    assert PasEncorePassee(q[k], d);
  }

  /** `simuler_trafic` on the two generators of one axis. */
  method TirerPaire(a: Trafic.Trafic, b: Trafic.Trafic, tirageA: Trafic.Tirage, tirageB: Trafic.Tirage)
    requires a != b && tirageA.Valide() && tirageB.Valide()
    modifies a`niveau, a`compteurVehicules, b`niveau, b`compteurVehicules
    ensures a.niveau == tirageA.niveau && b.niveau == tirageB.niveau
  {
    a.SimulerTrafic(tirageA);
    b.SimulerTrafic(tirageB);
  }

  /** The clock and the counters of the controller. */
  datatype Compteurs = Compteurs(simulationActive: bool, tempsDepuisDernierTick: int, tempsTotalSimulation: int,
                                 compteurPietonsNS: nat, compteurPietonsEO: nat)


  class Simulation {
    var simulationActive: bool
    var cycleCount: int
    var phaseActuelle: Phase
    var tempsDepuisDernierTick: int
    /** The four signal heads; the controller is their only owner and holds them as values. */
    var feuNord: Feu.EtatFeu
    var feuSud: Feu.EtatFeu
    var feuEst: Feu.EtatFeu
    var feuOuest: Feu.EtatFeu
    var historiqueTraficNS: seq<int>
    var historiqueTraficEO: seq<int>
    var compteurPietonsNS: nat
    var compteurPietonsEO: nat
    var tempsTotalSimulation: int

    const traficNord: Trafic.Trafic
    const traficSud: Trafic.Trafic
    const traficEst: Trafic.Trafic
    const traficOuest: Trafic.Trafic
    const gv: GestionnaireVoitures
    const ga: GestionnaireAmbulances
    /** The weather shared with the vehicles. */
    const meteo: Meteo.Meteo

    function Feux(): Feux
      reads this
    {
      ParDirection(feuNord, feuSud, feuEst, feuOuest)
    }

    function TourCourant(): Tour
      reads this
    {
      Tour(Feux(), phaseActuelle, cycleCount, historiqueTraficNS, historiqueTraficEO)
    }

    function CompteursCourants(): Compteurs
      reads this
    {
      Compteurs(simulationActive, tempsDepuisDernierTick, tempsTotalSimulation, compteurPietonsNS, compteurPietonsEO)
    }

    /** The demand levels of the four generators, as `spawn_voitures` reads them. */
    function Niveaux(): ParDirection<int>
      reads traficNord, traficSud, traficEst, traficOuest
    {
      ParDirection(traficNord.niveau, traficSud.niveau, traficEst.niveau, traficOuest.niveau)
    }

    predicate Distincts()
    {
      traficNord != traficSud && traficNord != traficEst && traficNord != traficOuest
      && traficSud != traficEst && traficSud != traficOuest && traficEst != traficOuest
    }

    /** Four distinct generators, the signal-safety invariant and bounded histories. */
    ghost predicate Coherent()
      reads this
    {
      Distincts() && TourCourant().Valide()
    }

    /** `Coherent`, and both managers consistent. */
    ghost predicate Valid()
      reads this, gv, ga
    {
      Coherent() && gv.Valid() && ga.Valid()
    }

    /** `__init__`: North-South green, East-West red, everything empty and stopped. */
    constructor (meteo: Meteo.Meteo)
      ensures Valid()
      ensures this.meteo == meteo
      ensures TourCourant() == Tour(ParDirection(Feu.EtatInitial(Feu.Vert), Feu.EtatInitial(Feu.Vert),
                                                 Feu.EtatInitial(Feu.Rouge), Feu.EtatInitial(Feu.Rouge)),
                                    NsVert, 0, [], [])
      ensures CompteursCourants() == Compteurs(false, 0, 0, 0, 0)
      ensures forall d :: gv.File(d) == []
      ensures ga.ambulanceActive.None? && !gv.modeUrgence
    {
      simulationActive := false;
      cycleCount := 0;
      phaseActuelle := NsVert;
      tempsDepuisDernierTick := 0;
      feuNord := Feu.EtatInitial(Feu.Vert);
      feuSud := Feu.EtatInitial(Feu.Vert);
      feuEst := Feu.EtatInitial(Feu.Rouge);
      feuOuest := Feu.EtatInitial(Feu.Rouge);
      traficNord := new Trafic.Trafic("Nord");
      traficSud := new Trafic.Trafic("Sud");
      traficEst := new Trafic.Trafic("Est");
      traficOuest := new Trafic.Trafic("Ouest");
      historiqueTraficNS := [];
      historiqueTraficEO := [];
      compteurPietonsNS := 0;
      compteurPietonsEO := 0;
      tempsTotalSimulation := 0;
      gv := new GestionnaireVoitures();
      ga := new GestionnaireAmbulances();
      this.meteo := meteo;
    }

    /** `set_couleur` on both heads of each axis: `cNS` on North-South, `cEO` on East-West. */
    method Colorier(cNS: Feu.Couleur, cEO: Feu.Couleur)
      modifies this`feuNord, this`feuSud, this`feuEst, this`feuOuest
      ensures Feux() == Colorer(old(Feux()), cNS, cEO)
    {
      feuNord := Feu.AvecCouleur(feuNord, cNS);
      feuSud := Feu.AvecCouleur(feuSud, cNS);
      feuEst := Feu.AvecCouleur(feuEst, cEO);
      feuOuest := Feu.AvecCouleur(feuOuest, cEO);
    }

    /**
     * The heads of `passer_ns_vert` (`ns`) or `passer_eo_vert`: the axis
     * receives the green duration, turns green, and the other axis turns red.
     */
    method AxeAuVert(ns: bool, duree: int)
      modifies this`feuNord, this`feuSud, this`feuEst, this`feuOuest
      ensures Feux() == AxeVert(old(Feux()), ns, duree)
    {
      if ns {
        feuNord := feuNord.(dureeVerteActuelle := duree);
        feuSud := feuSud.(dureeVerteActuelle := duree);
        feuNord := Feu.AvecCouleur(feuNord, Feu.Vert);
        feuSud := Feu.AvecCouleur(feuSud, Feu.Vert);
        feuEst := Feu.AvecCouleur(feuEst, Feu.Rouge);
        feuOuest := Feu.AvecCouleur(feuOuest, Feu.Rouge);
      } else {
        feuEst := feuEst.(dureeVerteActuelle := duree);
        feuOuest := feuOuest.(dureeVerteActuelle := duree);
        feuEst := Feu.AvecCouleur(feuEst, Feu.Vert);
        feuOuest := Feu.AvecCouleur(feuOuest, Feu.Vert);
        feuNord := Feu.AvecCouleur(feuNord, Feu.Rouge);
        feuSud := Feu.AvecCouleur(feuSud, Feu.Rouge);
      }
    }

    /** `toggle_meteo`: the shared weather flips. */
    method ToggleMeteo() returns (nouvelEtat: Meteo.Etat)
      modifies meteo
      ensures meteo.etat == Meteo.Basculer(old(meteo.etat)) && nouvelEtat == meteo.etat
    {
      nouvelEtat := meteo.Toggle();
    }

    /**
     * `demarrer_simulation`: only from the stopped state; phase and counters
     * reset, North-South green, East-West red, and the initial vehicles placed.
     */
    method Demarrer(positions: seq<ParDirection<int>>)
      requires Valid()
      requires VOITURES_INITIALES_MIN <= |positions| <= VOITURES_INITIALES_MAX
      requires forall k :: 0 <= k < |positions| ==> PositionsInitialesValides(positions[k])
      modifies this`feuNord, this`feuSud, this`feuEst, this`feuOuest
      modifies this`simulationActive, this`cycleCount, this`tempsTotalSimulation, this`phaseActuelle, gv
      ensures Valid()
      ensures simulationActive
      ensures old(simulationActive) ==>
                TourCourant() == old(TourCourant()) && tempsTotalSimulation == old(tempsTotalSimulation)
                && gv.Quatre() == old(gv.Quatre())
      ensures !old(simulationActive) ==>
                Feux() == Colorer(old(Feux()), Feu.Vert, Feu.Rouge) && phaseActuelle == NsVert
                && cycleCount == 0 && tempsTotalSimulation == 0
                && gv.Vue() == AvecInitiales(old(gv.Vue()), positions)
      ensures gv.modeUrgence == old(gv.modeUrgence) && gv.accidentActif == old(gv.accidentActif)
    {
      if !simulationActive {
        Reinitialiser();
        gv.SpawnVoituresInitial(positions);
      }
    }

    /** The state part of `demarrer_simulation`: running, counters reset, North-South green, East-West red. */
    method Reinitialiser()
      requires Coherent()
      modifies this`feuNord, this`feuSud, this`feuEst, this`feuOuest
      modifies this`simulationActive, this`cycleCount, this`tempsTotalSimulation, this`phaseActuelle
      ensures Coherent() && simulationActive
      ensures Feux() == Colorer(old(Feux()), Feu.Vert, Feu.Rouge) && phaseActuelle == NsVert
      ensures cycleCount == 0 && tempsTotalSimulation == 0
    {
      simulationActive := true;
      cycleCount := 0;
      tempsTotalSimulation := 0;
      phaseActuelle := NsVert;
      Colorier(Feu.Vert, Feu.Rouge);
    }

    /** `arreter_simulation`. */
    method Arreter()
      modifies this`simulationActive
      ensures !simulationActive
    {
      simulationActive := false;
    }

    /**
     * `demander_pieton`: ignored while stopped or for an unknown name;
     * otherwise the head's `request_pieton` and one more request on its axis.
     */
    method DemanderPieton(sens: string)
      requires Coherent()
      modifies this`feuNord, this`feuSud, this`feuEst, this`feuOuest
      modifies this`compteurPietonsNS, this`compteurPietonsEO
      ensures Coherent()
      ensures !old(simulationActive) || DirDeSens(sens).None? ==>
                Feux() == old(Feux())
                && compteurPietonsNS == old(compteurPietonsNS) && compteurPietonsEO == old(compteurPietonsEO)
      ensures old(simulationActive) && DirDeSens(sens).Some? ==>
                var d := DirDeSens(sens).value;
                Feux() == old(Feux()).Avec(d, Feu.ApresDemandePieton(old(Feux()).Get(d)))
                && compteurPietonsNS == old(compteurPietonsNS) + (if AxeNS(d) then 1 else 0)
                && compteurPietonsEO == old(compteurPietonsEO) + (if AxeNS(d) then 0 else 1)
    {
      if !simulationActive {
        return;
      }
      match DirDeSens(sens)
      case None =>
      case Some(N) =>
        feuNord := Feu.ApresDemandePieton(feuNord);
        compteurPietonsNS := compteurPietonsNS + 1;
      case Some(S) =>
        feuSud := Feu.ApresDemandePieton(feuSud);
        compteurPietonsNS := compteurPietonsNS + 1;
      case Some(E) =>
        feuEst := Feu.ApresDemandePieton(feuEst);
        compteurPietonsEO := compteurPietonsEO + 1;
      case Some(O) =>
        feuOuest := Feu.ApresDemandePieton(feuOuest);
        compteurPietonsEO := compteurPietonsEO + 1;
    }

    /**
     * `simuler_accident`: ignored while stopped or during an accident;
     * otherwise the manual accident and all four heads red.
     */
    method SimulerAccident()
      requires Valid()
      modifies this`feuNord, this`feuSud, this`feuEst, this`feuOuest, gv
      ensures Valid()
      ensures !old(simulationActive) || old(gv.modeUrgence) ==>
                TourCourant() == old(TourCourant()) && gv.accidentActif == old(gv.accidentActif)
                && gv.compteurAccidents == old(gv.compteurAccidents)
      ensures old(simulationActive) && !old(gv.modeUrgence) ==>
                gv.modeUrgence && gv.compteurAccidents == old(gv.compteurAccidents) + 1
                && TourCourant() == old(TourCourant()).(feux := Colorer(old(Feux()), Feu.Rouge, Feu.Rouge))
      ensures forall d :: gv.File(d) == old(gv.File(d))
    {
      if !simulationActive || gv.modeUrgence {
        return;
      }
      var ok := gv.SimulerAccident();
      if ok {
        Colorier(Feu.Rouge, Feu.Rouge);
      }
    }

    /** `spawner_ambulance`: one ambulance on the tagged queue, whether or not the simulation runs. */
    method SpawnerAmbulance(direction: string)
      requires gv.Valid() && ga.Valid()
      modifies ga, gv
      ensures gv.Valid() && ga.Valid()
      ensures var d := DirDeTag(direction);
              |gv.File(d)| == |old(gv.File(d))| + 1 && gv.File(d)[..|old(gv.File(d))|] == old(gv.File(d))
              && gv.File(d)[|old(gv.File(d))|].Vue() == AmbulanceApparue(d)
      ensures forall d :: d != DirDeTag(direction) ==> gv.File(d) == old(gv.File(d))
      ensures ga.compteurAmbulances == old(ga.compteurAmbulances) + 1
      ensures ga.ambulanceActive == old(ga.ambulanceActive)
    {
      var ok := ga.SpawnerAmbulance(direction, gv);
    }

    /**
     * `passer_ns_vert`: a new cycle, fresh demand levels for the North and
     * South generators, the adaptive green on North-South from the demand
     * `dem` counted on the queues, East-West red, and the demand recorded.
     */
    method PasserNsVert(tirageA: Trafic.Tirage, tirageB: Trafic.Tirage, dem: Demandes)
      requires Coherent() && tirageA.Valide() && tirageB.Valide()
      modifies this`feuNord, this`feuSud, this`feuEst, this`feuOuest
      modifies this`phaseActuelle, this`cycleCount, this`historiqueTraficNS, this`historiqueTraficEO
      modifies traficNord`niveau, traficNord`compteurVehicules, traficSud`niveau, traficSud`compteurVehicules
      ensures Coherent()
      ensures TourCourant() == PasserNS(old(TourCourant()), dem)
      ensures Niveaux() == old(Niveaux()).(n := tirageA.niveau, s := tirageB.niveau)
    {
      cycleCount := cycleCount + 1;
      TirerPaire(traficNord, traficSud, tirageA, tirageB);
      var total := dem.attenteNS + dem.approchantNS;
      AxeAuVert(true, DureeAdaptative(total));
      phaseActuelle := NsVert;
      historiqueTraficNS := AjouterBorne(historiqueTraficNS, total);
    }

    /** `passer_eo_vert`: as `PasserNsVert` for East-West, without a new cycle. */
    method PasserEoVert(tirageA: Trafic.Tirage, tirageB: Trafic.Tirage, dem: Demandes)
      requires Coherent() && tirageA.Valide() && tirageB.Valide()
      modifies this`feuNord, this`feuSud, this`feuEst, this`feuOuest
      modifies this`phaseActuelle, this`cycleCount, this`historiqueTraficNS, this`historiqueTraficEO
      modifies traficEst`niveau, traficEst`compteurVehicules, traficOuest`niveau, traficOuest`compteurVehicules
      ensures Coherent()
      ensures TourCourant() == PasserEO(old(TourCourant()), dem)
      ensures Niveaux() == old(Niveaux()).(e := tirageA.niveau, o := tirageB.niveau)
    {
      TirerPaire(traficEst, traficOuest, tirageA, tirageB);
      var total := dem.attenteEO + dem.approchantEO;
      AxeAuVert(false, DureeAdaptative(total));
      phaseActuelle := EoVert;
      historiqueTraficEO := AjouterBorne(historiqueTraficEO, total);
    }

    /**
     * A green phase of `traiter_phase_normale` (North-South when `ns`): the
     * early end when the axis has no demand left, then orange on expiry.
     */
    method TraiterVert(ns: bool, dem: Demandes)
      requires Coherent() && phaseActuelle == (if ns then NsVert else EoVert)
      modifies this`feuNord, this`feuSud, this`feuEst, this`feuOuest, this`phaseActuelle
      ensures Coherent()
      ensures TourCourant() == PhaseNormale(old(TourCourant()), dem, None)
    {
      if ns {
        if AnticipeNS(Feux(), dem) {
          feuNord := feuNord.(tempsRestant := 0);
        }
        if feuNord.tempsRestant == 0 {
          Colorier(Feu.Orange, Feu.Rouge);
          phaseActuelle := NsOrange;
        }
      } else {
        if AnticipeEO(Feux(), dem) {
          feuEst := feuEst.(tempsRestant := 0);
        }
        if feuEst.tempsRestant == 0 {
          Colorier(Feu.Rouge, Feu.Orange);
          phaseActuelle := EoOrange;
        }
      }
    }

    /**
     * An orange phase of `traiter_phase_normale` (North-South when `ns`): on
     * expiry the axis turns red, its pending crossings start and the other
     * axis turns green.
     */
    method TraiterOrange(ns: bool, tirageA: Trafic.Tirage, tirageB: Trafic.Tirage, dem: Demandes)
      requires Coherent() && tirageA.Valide() && tirageB.Valide()
      requires phaseActuelle == (if ns then NsOrange else EoOrange)
      modifies this`feuNord, this`feuSud, this`feuEst, this`feuOuest
      modifies this`phaseActuelle, this`cycleCount, this`historiqueTraficNS, this`historiqueTraficEO
      modifies traficNord`niveau, traficNord`compteurVehicules, traficSud`niveau, traficSud`compteurVehicules
      modifies traficEst`niveau, traficEst`compteurVehicules, traficOuest`niveau, traficOuest`compteurVehicules
      ensures Coherent()
      ensures TourCourant() == PhaseNormale(old(TourCourant()), dem, None)
      ensures ns && phaseActuelle == EoVert ==> Niveaux() == old(Niveaux()).(e := tirageA.niveau, o := tirageB.niveau)
      ensures !ns && phaseActuelle == NsVert ==> Niveaux() == old(Niveaux()).(n := tirageA.niveau, s := tirageB.niveau)
      ensures phaseActuelle == old(phaseActuelle) ==> Niveaux() == old(Niveaux())
    {
      if ns {
        if feuNord.tempsRestant == 0 {
          FinirOrange(true);
          PasserEoVert(tirageA, tirageB, dem);
        }
      } else {
        if feuEst.tempsRestant == 0 {
          FinirOrange(false);
          PasserNsVert(tirageA, tirageB, dem);
        }
      }
    }

    /**
     * The heads at the expiry of an orange phase: the axis (`ns` for
     * North-South) turns red and each of its heads with a pending request
     * starts its crossing.
     */
    method FinirOrange(ns: bool)
      requires Coherent()
      modifies this`feuNord, this`feuSud, this`feuEst, this`feuOuest
      ensures Coherent()
      ensures Feux() == FinOrange(old(Feux()), ns)
    {
      if ns {
        feuNord := Feu.AvecCouleur(feuNord, Feu.Rouge);
        feuSud := Feu.AvecCouleur(feuSud, Feu.Rouge);
        if feuNord.demandePieton && !feuNord.pietonVert {
          feuNord := Feu.PietonDemarre(feuNord);
        }
        if feuSud.demandePieton && !feuSud.pietonVert {
          feuSud := Feu.PietonDemarre(feuSud);
        }
      } else {
        feuEst := Feu.AvecCouleur(feuEst, Feu.Rouge);
        feuOuest := Feu.AvecCouleur(feuOuest, Feu.Rouge);
        if feuEst.demandePieton && !feuEst.pietonVert {
          feuEst := Feu.PietonDemarre(feuEst);
        }
        if feuOuest.demandePieton && !feuOuest.pietonVert {
          feuOuest := Feu.PietonDemarre(feuOuest);
        }
      }
    }

    /**
     * `traiter_phase_normale`, proved against `PhaseNormale`; the demand
     * `dem` is the count on the queues, which do not move during the phase
     * logic. The two draws feed the generators of the axis that turns green,
     * if one does.
     */
    method TraiterPhaseNormale(tirageA: Trafic.Tirage, tirageB: Trafic.Tirage, dem: Demandes)
      requires Coherent() && tirageA.Valide() && tirageB.Valide()
      modifies this`feuNord, this`feuSud, this`feuEst, this`feuOuest
      modifies this`phaseActuelle, this`cycleCount, this`historiqueTraficNS, this`historiqueTraficEO
      modifies traficNord`niveau, traficNord`compteurVehicules, traficSud`niveau, traficSud`compteurVehicules
      modifies traficEst`niveau, traficEst`compteurVehicules, traficOuest`niveau, traficOuest`compteurVehicules
      ensures Coherent()
      ensures TourCourant() == PhaseNormale(old(TourCourant()), dem, ga.ambulanceActive)
      ensures old(phaseActuelle) == NsOrange && phaseActuelle == EoVert ==>
                Niveaux() == old(Niveaux()).(e := tirageA.niveau, o := tirageB.niveau)
      ensures old(phaseActuelle) == EoOrange && phaseActuelle == NsVert ==>
                Niveaux() == old(Niveaux()).(n := tirageA.niveau, s := tirageB.niveau)
      ensures old(phaseActuelle) == phaseActuelle || old(phaseActuelle) == NsVert || old(phaseActuelle) == EoVert ==>
                Niveaux() == old(Niveaux())
    {
      if ga.ambulanceActive.Some? {
        return;
      }
      match phaseActuelle
      case NsVert => TraiterVert(true, dem);
      case NsOrange => TraiterOrange(true, tirageA, tirageB, dem);
      case EoVert => TraiterVert(false, dem);
      case EoOrange => TraiterOrange(false, tirageA, tirageB, dem);
    }

    /** `reduire_temps` on the four heads. */
    method Decompter()
      modifies this`feuNord, this`feuSud, this`feuEst, this`feuOuest
      ensures Feux() == Decompte(old(Feux()))
    {
      feuNord := Feu.Decompter(feuNord);
      feuSud := Feu.Decompter(feuSud);
      feuEst := Feu.Decompter(feuEst);
      feuOuest := Feu.Decompter(feuOuest);
    }

    /** While an ambulance has priority, its axis's green is topped back up to 10 s. */
    method Prolonger()
      modifies this`feuNord, this`feuSud, this`feuEst, this`feuOuest
      ensures Feux() == Prolonge(old(Feux()), ga.ambulanceActive)
    {
      match ga.ambulanceActive
      case None =>
      case Some(d) =>
        if AxeNS(d) {
          if feuNord.tempsRestant < 3 {
            feuNord := feuNord.(tempsRestant := 10);
            feuSud := feuSud.(tempsRestant := 10);
          }
        } else {
          if feuEst.tempsRestant < 3 {
            feuEst := feuEst.(tempsRestant := 10);
            feuOuest := feuOuest.(tempsRestant := 10);
          }
        }
    }

    /**
     * `update_simulation`, once per simulated second while running: one more
     * second, one tick on every head, the ambulance hold, then the phase
     * logic on the demand `dem`.
     */
    method UpdateSimulation(tirageA: Trafic.Tirage, tirageB: Trafic.Tirage, dem: Demandes)
      requires Coherent() && tirageA.Valide() && tirageB.Valide()
      modifies this`feuNord, this`feuSud, this`feuEst, this`feuOuest
      modifies this`phaseActuelle, this`cycleCount, this`historiqueTraficNS, this`historiqueTraficEO
      modifies this`tempsTotalSimulation
      modifies traficNord`niveau, traficNord`compteurVehicules, traficSud`niveau, traficSud`compteurVehicules
      modifies traficEst`niveau, traficEst`compteurVehicules, traficOuest`niveau, traficOuest`compteurVehicules
      ensures Coherent()
      ensures !old(simulationActive) ==>
                TourCourant() == old(TourCourant()) && tempsTotalSimulation == old(tempsTotalSimulation)
                && Niveaux() == old(Niveaux())
      ensures old(simulationActive) ==>
                TourCourant() == Seconde(old(TourCourant()), dem, ga.ambulanceActive)
                && tempsTotalSimulation == old(tempsTotalSimulation) + 1
    {
      if !simulationActive {
        return;
      }
      ghost var t0 := TourCourant();
      tempsTotalSimulation := tempsTotalSimulation + 1;
      Decompter();
      Prolonger();
      assert TourCourant() == t0.(feux := Prolonge(Decompte(t0.feux), ga.ambulanceActive));
      TraiterPhaseNormale(tirageA, tirageB, dem);
    }

    /**
     * The once-a-second part of the main loop: the clock advances by `dt` ms
     * and, past one second, resets and runs `update_simulation` on the demand
     * counted on the queues.
     */
    method Tick(dt: int, tirageA: Trafic.Tirage, tirageB: Trafic.Tirage) returns (dem: Demandes)
      requires Coherent() && tirageA.Valide() && tirageB.Valide()
      modifies this`feuNord, this`feuSud, this`feuEst, this`feuOuest
      modifies this`phaseActuelle, this`cycleCount, this`historiqueTraficNS, this`historiqueTraficEO
      modifies this`tempsTotalSimulation, this`tempsDepuisDernierTick
      modifies traficNord`niveau, traficNord`compteurVehicules, traficSud`niveau, traficSud`compteurVehicules
      modifies traficEst`niveau, traficEst`compteurVehicules, traficOuest`niveau, traficOuest`compteurVehicules
      ensures Coherent()
      ensures old(tempsDepuisDernierTick) + dt >= 1000 ==> tempsDepuisDernierTick == 0
      ensures old(tempsDepuisDernierTick) + dt < 1000 ==>
                tempsDepuisDernierTick == old(tempsDepuisDernierTick) + dt && TourCourant() == old(TourCourant())
      ensures dem == DemandesDe(old(gv.Vue()))
      ensures old(tempsDepuisDernierTick) + dt >= 1000 && old(simulationActive) ==>
                TourCourant() == Seconde(old(TourCourant()), dem, ga.ambulanceActive)
      ensures !old(simulationActive) ==> TourCourant() == old(TourCourant())
      ensures simulationActive == old(simulationActive)
    {
      dem := gv.MesurerDemandes();
      Horodater(dt, tirageA, tirageB, dem);
    }

    /** The clock part of `tick`, on the counts `dem` taken at its start. */
    method Horodater(dt: int, tirageA: Trafic.Tirage, tirageB: Trafic.Tirage, dem: Demandes)
      requires Coherent() && tirageA.Valide() && tirageB.Valide()
      modifies this`feuNord, this`feuSud, this`feuEst, this`feuOuest
      modifies this`phaseActuelle, this`cycleCount, this`historiqueTraficNS, this`historiqueTraficEO
      modifies this`tempsTotalSimulation, this`tempsDepuisDernierTick
      modifies traficNord`niveau, traficNord`compteurVehicules, traficSud`niveau, traficSud`compteurVehicules
      modifies traficEst`niveau, traficEst`compteurVehicules, traficOuest`niveau, traficOuest`compteurVehicules
      ensures Coherent()
      ensures old(tempsDepuisDernierTick) + dt >= 1000 ==> tempsDepuisDernierTick == 0
      ensures old(tempsDepuisDernierTick) + dt < 1000 ==>
                tempsDepuisDernierTick == old(tempsDepuisDernierTick) + dt && TourCourant() == old(TourCourant())
      ensures old(tempsDepuisDernierTick) + dt >= 1000 && old(simulationActive) ==>
                TourCourant() == Seconde(old(TourCourant()), dem, ga.ambulanceActive)
      ensures !old(simulationActive) ==> TourCourant() == old(TourCourant())
      ensures simulationActive == old(simulationActive)
    {
      tempsDepuisDernierTick := tempsDepuisDernierTick + dt;
      if tempsDepuisDernierTick >= 1000 {
        tempsDepuisDernierTick := 0;
        UpdateSimulation(tirageA, tirageB, dem);
      }
    }

    /**
     * Absolute priority: the ambulance's axis turns green for 30 s, the other
     * axis red, and the phase follows.
     */
    method DonnerPriorite(d: Dir)
      modifies this`feuNord, this`feuSud, this`feuEst, this`feuOuest, this`phaseActuelle
      ensures TourCourant() == old(TourCourant()).(feux := Priorite(old(Feux()), d), phase := PhasePrioritaire(d))
    {
      if AxeNS(d) {
        feuNord := Feu.AvecCouleur(feuNord, Feu.Vert).(dureeVerteActuelle := 30, tempsRestant := 30);
        feuSud := Feu.AvecCouleur(feuSud, Feu.Vert).(dureeVerteActuelle := 30, tempsRestant := 30);
        feuEst := Feu.AvecCouleur(feuEst, Feu.Rouge);
        feuOuest := Feu.AvecCouleur(feuOuest, Feu.Rouge);
        phaseActuelle := NsVert;
      } else {
        feuEst := Feu.AvecCouleur(feuEst, Feu.Vert).(dureeVerteActuelle := 30, tempsRestant := 30);
        feuOuest := Feu.AvecCouleur(feuOuest, Feu.Vert).(dureeVerteActuelle := 30, tempsRestant := 30);
        feuNord := Feu.AvecCouleur(feuNord, Feu.Rouge);
        feuSud := Feu.AvecCouleur(feuSud, Feu.Rouge);
        phaseActuelle := EoVert;
      }
    }

    /**
     * An ambulance detected on queue `d`: `activer_priorite_ambulance`, and
     * the forced green when the activation is new.
     */
    method ActiverAmbulance(d: Dir)
      requires Coherent() && ga.Valid()
      modifies this`feuNord, this`feuSud, this`feuEst, this`feuOuest, this`phaseActuelle, ga
      ensures Coherent() && ga.Valid()
      ensures ga.ambulanceActive == Some(d)
      ensures old(ga.ambulanceActive) != Some(d) ==>
                TourCourant() == old(TourCourant()).(feux := Priorite(old(Feux()), d), phase := PhasePrioritaire(d))
      ensures old(ga.ambulanceActive) == Some(d) ==> TourCourant() == old(TourCourant())
      ensures old(ga.ambulanceActive).None? ==> ga.phaseAvantAmbulance == Some(old(phaseActuelle))
      ensures ga.compteurAmbulances == old(ga.compteurAmbulances)
    {
      var r := ga.ActiverPrioriteAmbulance(d, phaseActuelle);
      if r.Some? {
        DonnerPriorite(r.value);
      }
    }

    /**
     * The ambulance part of a frame, on the queues as they stand: a detected
     * ambulance that is not already served gets priority, and an ambulance
     * that has passed releases it. A detected ambulance always holds the
     * priority at the end of the frame.
     */
    method TraiterAmbulances() returns (det: Option<Dir>)
      requires Valid()
      modifies this`feuNord, this`feuSud, this`feuEst, this`feuOuest, this`phaseActuelle, ga
      ensures Valid()
      ensures det == AmbulanceApprochante(old(gv.Vue()), gv.modeUrgence)
      ensures det.Some? && old(ga.ambulanceActive) != det ==>
                TourCourant() == old(TourCourant()).(feux := Priorite(old(Feux()), det.value),
                                                     phase := PhasePrioritaire(det.value))
      ensures det.None? || old(ga.ambulanceActive) == det ==> TourCourant() == old(TourCourant())
      ensures det.Some? ==> ga.ambulanceActive == det
      ensures det.None? && old(ga.ambulanceActive).Some? ==>
                (ga.ambulanceActive.None? <==>
                   !EncorePresente(old(gv.Vue()).File(old(ga.ambulanceActive).value), old(ga.ambulanceActive).value))
      ensures det.None? && old(ga.ambulanceActive).None? ==> ga.ambulanceActive.None?
      ensures ga.compteurAmbulances == old(ga.compteurAmbulances)
    {
      var f := gv.Vue();
      det := ga.DetecterAmbulanceApprochant(f, gv.modeUrgence);
      if det.Some? {
        ActiverAmbulance(det.value);
        DetecteeEncorePresente(f.File(det.value), det.value);
      }
      var passee := ga.VerifierAmbulancePassee(f);
    }

    /**
     * The collision part of a frame: outside emergency mode, a collision
     * starts an accident between the two vehicles found, and all four heads
     * turn red.
     */
    method TraiterCollision()
      requires Valid()
      modifies this`feuNord, this`feuSud, this`feuEst, this`feuOuest, gv
      ensures Valid()
      ensures !old(gv.modeUrgence) && old(gv.DetecterCollisions()).Some? ==>
                var (v1, v2, dir1, dir2) := old(gv.DetecterCollisions()).value;
                gv.modeUrgence && gv.compteurAccidents == old(gv.compteurAccidents) + 1
                && gv.accidentActif == Some(Accident(Milieu(v1.x, v2.x), Milieu(v1.y, v2.y), dir1, dir2,
                                                     DUREE_INTERVENTION_ACCIDENT, v1, v2))
                && TourCourant() == old(TourCourant()).(feux := Colorer(old(Feux()), Feu.Rouge, Feu.Rouge))
      ensures old(gv.modeUrgence) || old(gv.DetecterCollisions()).None? ==>
                TourCourant() == old(TourCourant()) && gv.modeUrgence == old(gv.modeUrgence)
                && gv.accidentActif == old(gv.accidentActif) && gv.compteurAccidents == old(gv.compteurAccidents)
      ensures forall d :: gv.File(d) == old(gv.File(d))
    {
      if !gv.modeUrgence {
        var collision := gv.DetecterCollisions();
        if collision.Some? {
          var (v1, v2, dir1, dir2) := collision.value;
          gv.DeclencherAccident(v1, v2, dir1, dir2);
          Colorier(Feu.Rouge, Feu.Rouge);
        }
      }
    }

    /** The restart after an accident, on the demand `dem`: the busier axis turns green, North-South on a tie. */
    method Reprendre(tirageA: Trafic.Tirage, tirageB: Trafic.Tirage, dem: Demandes)
      requires Coherent() && tirageA.Valide() && tirageB.Valide()
      modifies this`feuNord, this`feuSud, this`feuEst, this`feuOuest
      modifies this`phaseActuelle, this`cycleCount, this`historiqueTraficNS, this`historiqueTraficEO
      modifies traficNord`niveau, traficNord`compteurVehicules, traficSud`niveau, traficSud`compteurVehicules
      modifies traficEst`niveau, traficEst`compteurVehicules, traficOuest`niveau, traficOuest`compteurVehicules
      ensures Coherent()
      ensures TourCourant() == Reprise(old(TourCourant()), dem)
    {
      var voituresNS := dem.attenteNS + dem.approchantNS;
      var voituresEO := dem.attenteEO + dem.approchantEO;
      if voituresNS >= voituresEO {
        PasserNsVert(tirageA, tirageB, dem);
      } else {
        PasserEoVert(tirageA, tirageB, dem);
      }
    }

    /** The restart once an accident is cleared: the demand is counted on the queues, then `Reprendre`. */
    method RepriseApresAccident(tirageA: Trafic.Tirage, tirageB: Trafic.Tirage) returns (dem: Demandes)
      requires Coherent() && tirageA.Valide() && tirageB.Valide()
      modifies this`feuNord, this`feuSud, this`feuEst, this`feuOuest
      modifies this`phaseActuelle, this`cycleCount, this`historiqueTraficNS, this`historiqueTraficEO
      modifies traficNord`niveau, traficNord`compteurVehicules, traficSud`niveau, traficSud`compteurVehicules
      modifies traficEst`niveau, traficEst`compteurVehicules, traficOuest`niveau, traficOuest`compteurVehicules
      ensures Coherent()
      ensures gv.Valid() == old(gv.Valid()) && gv.Quatre() == old(gv.Quatre())
      ensures gv.modeUrgence == old(gv.modeUrgence) && gv.accidentActif == old(gv.accidentActif)
      ensures dem == DemandesDe(old(gv.Vue()))
      ensures TourCourant() == Reprise(old(TourCourant()), dem)
    {
      dem := gv.MesurerDemandes();
      Reprendre(tirageA, tirageB, dem);
    }

    /**
     * The end-of-accident part of a frame: a running accident counts down
     * and, when it ends, both vehicles leave the queues and the axis with the
     * larger demand, counted on the remaining queues, turns green.
     */
    method FinirAccident(tirageA: Trafic.Tirage, tirageB: Trafic.Tirage) returns (dem: Option<Demandes>)
      requires Coherent() && gv.Valid() && tirageA.Valide() && tirageB.Valide()
      modifies this`feuNord, this`feuSud, this`feuEst, this`feuOuest
      modifies this`phaseActuelle, this`cycleCount, this`historiqueTraficNS, this`historiqueTraficEO
      modifies gv
      modifies traficNord`niveau, traficNord`compteurVehicules, traficSud`niveau, traficSud`compteurVehicules
      modifies traficEst`niveau, traficEst`compteurVehicules, traficOuest`niveau, traficOuest`compteurVehicules
      ensures Coherent() && gv.Valid()
      ensures gv.compteurAccidents == old(gv.compteurAccidents)
      ensures old(gv.accidentActif).None? ==>
                dem.None? && TourCourant() == old(TourCourant()) && gv.accidentActif.None? && gv.Quatre() == old(gv.Quatre())
      ensures old(gv.accidentActif).Some? && old(gv.accidentActif).value.duree > 1 ==>
                dem.None? && TourCourant() == old(TourCourant()) && gv.Quatre() == old(gv.Quatre())
                && gv.accidentActif == Some(old(gv.accidentActif).value.(duree := old(gv.accidentActif).value.duree - 1))
      ensures old(gv.accidentActif).Some? && old(gv.accidentActif).value.duree <= 1 ==>
                !gv.modeUrgence && gv.accidentActif.None?
                && gv.Quatre() == RetirerDe(RetirerDe(old(gv.Quatre()), old(gv.accidentActif).value.voiture1),
                                            old(gv.accidentActif).value.voiture2)
                && dem.Some? && TourCourant() == Reprise(old(TourCourant()), dem.value)
    {
      dem := None;
      if gv.accidentActif.Some? {
        var termine := gv.GererAccident();
        if termine {
          var d := RepriseApresAccident(tirageA, tirageB);
          dem := Some(d);
        }
      }
    }

    /** The vehicle part of a frame: `spawn_voitures` on the current levels, then `update_voitures`. */
    method Circuler(aleas: ParDirection<real>)
      requires gv.Valid()
      modifies gv, gv.voituresNord, gv.voituresSud, gv.voituresEst, gv.voituresOuest
      ensures gv.Valid()
      ensures gv.modeUrgence == old(gv.modeUrgence) && gv.accidentActif == old(gv.accidentActif)
      ensures gv.compteurAccidents == old(gv.compteurAccidents)
    {
      gv.SpawnVoitures(Niveaux(), aleas);
      forall i | 0 <= i < |gv.voituresNord| ensures gv.voituresNord[i] in old(gv.voituresNord) || fresh(gv.voituresNord[i]) {
        assert gv.voituresNord[i] in gv.File(N);
      }
      forall i | 0 <= i < |gv.voituresSud| ensures gv.voituresSud[i] in old(gv.voituresSud) || fresh(gv.voituresSud[i]) {
        assert gv.voituresSud[i] in gv.File(S);
      }
      forall i | 0 <= i < |gv.voituresEst| ensures gv.voituresEst[i] in old(gv.voituresEst) || fresh(gv.voituresEst[i]) {
        assert gv.voituresEst[i] in gv.File(E);
      }
      forall i | 0 <= i < |gv.voituresOuest| ensures gv.voituresOuest[i] in old(gv.voituresOuest) || fresh(gv.voituresOuest[i]) {
        assert gv.voituresOuest[i] in gv.File(O);
      }
      gv.UpdateVoitures(feuNord, feuSud, feuEst, feuOuest, meteo.etat);
    }

    /** The emergency part of a frame: ambulances, then collisions, then the accident countdown. */
    method Urgences(tirageA: Trafic.Tirage, tirageB: Trafic.Tirage)
      requires Valid() && tirageA.Valide() && tirageB.Valide()
      modifies this`feuNord, this`feuSud, this`feuEst, this`feuOuest
      modifies this`phaseActuelle, this`cycleCount, this`historiqueTraficNS, this`historiqueTraficEO
      modifies ga, gv
      modifies traficNord`niveau, traficNord`compteurVehicules, traficSud`niveau, traficSud`compteurVehicules
      modifies traficEst`niveau, traficEst`compteurVehicules, traficOuest`niveau, traficOuest`compteurVehicules
      ensures Valid()
      ensures var det := AmbulanceApprochante(old(gv.Vue()), old(gv.modeUrgence));
              det.Some? ==> ga.ambulanceActive == det
      ensures ga.compteurAmbulances == old(ga.compteurAmbulances)
    {
      var det := TraiterAmbulances();
      TraiterCollision();
      var dem := FinirAccident(tirageA, tirageB);
    }

    /**
     * One pass of the main loop: the once-a-second update, then, while
     * running, the vehicles and the emergency logic.
     */
    method Frame(dt: int, tickA: Trafic.Tirage, tickB: Trafic.Tirage, aleas: ParDirection<real>,
                 repriseA: Trafic.Tirage, repriseB: Trafic.Tirage)
      requires Valid()
      requires tickA.Valide() && tickB.Valide() && repriseA.Valide() && repriseB.Valide()
      modifies this`feuNord, this`feuSud, this`feuEst, this`feuOuest
      modifies this`phaseActuelle, this`cycleCount, this`historiqueTraficNS, this`historiqueTraficEO
      modifies this`tempsTotalSimulation, this`tempsDepuisDernierTick
      modifies traficNord`niveau, traficNord`compteurVehicules, traficSud`niveau, traficSud`compteurVehicules
      modifies traficEst`niveau, traficEst`compteurVehicules, traficOuest`niveau, traficOuest`compteurVehicules
      modifies ga, gv, gv.voituresNord, gv.voituresSud, gv.voituresEst, gv.voituresOuest
      ensures Valid()
      ensures simulationActive == old(simulationActive)
      ensures !old(simulationActive) ==> TourCourant() == old(TourCourant()) && gv.Quatre() == old(gv.Quatre())
    {
      Horloge(dt, tickA, tickB);
      if simulationActive {
        Vehicules(aleas, repriseA, repriseB);
      }
    }

    /** The clock part of a frame: `Tick`, seen from the frame, which only relies on the invariant it keeps. */
    method Horloge(dt: int, tickA: Trafic.Tirage, tickB: Trafic.Tirage)
      requires Coherent() && tickA.Valide() && tickB.Valide()
      modifies this`feuNord, this`feuSud, this`feuEst, this`feuOuest
      modifies this`phaseActuelle, this`cycleCount, this`historiqueTraficNS, this`historiqueTraficEO
      modifies this`tempsTotalSimulation, this`tempsDepuisDernierTick
      modifies traficNord`niveau, traficNord`compteurVehicules, traficSud`niveau, traficSud`compteurVehicules
      modifies traficEst`niveau, traficEst`compteurVehicules, traficOuest`niveau, traficOuest`compteurVehicules
      ensures Coherent() && simulationActive == old(simulationActive)
      ensures !old(simulationActive) ==> TourCourant() == old(TourCourant())
      ensures old(tempsDepuisDernierTick) + dt >= 1000 ==> tempsDepuisDernierTick == 0
      ensures old(tempsDepuisDernierTick) + dt < 1000 ==>
                tempsDepuisDernierTick == old(tempsDepuisDernierTick) + dt && TourCourant() == old(TourCourant())
      ensures old(tempsDepuisDernierTick) + dt >= 1000 && old(simulationActive) ==>
                TourCourant() == Seconde(old(TourCourant()), DemandesDe(old(gv.Vue())), ga.ambulanceActive)
    {
      var dem := Tick(dt, tickA, tickB);
    }

    /** The running part of a frame: the vehicles move, then the emergency logic runs. */
    method Vehicules(aleas: ParDirection<real>, repriseA: Trafic.Tirage, repriseB: Trafic.Tirage)
      requires Valid() && repriseA.Valide() && repriseB.Valide()
      modifies this`feuNord, this`feuSud, this`feuEst, this`feuOuest
      modifies this`phaseActuelle, this`cycleCount, this`historiqueTraficNS, this`historiqueTraficEO
      modifies traficNord`niveau, traficNord`compteurVehicules, traficSud`niveau, traficSud`compteurVehicules
      modifies traficEst`niveau, traficEst`compteurVehicules, traficOuest`niveau, traficOuest`compteurVehicules
      modifies ga, gv, gv.voituresNord, gv.voituresSud, gv.voituresEst, gv.voituresOuest
      ensures Valid()
    {
      Circuler(aleas);
      Urgences(repriseA, repriseB);
    }
  }
}
