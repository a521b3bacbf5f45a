/**
 * The phase controller of main_gui.py, on values: what each step of the
 * controller does to the four signal heads, to the phase, to the cycle counter
 * and to the two bounded traffic histories. The class `Simulation.Simulation`
 * applies these functions to its heads.
 */
module Phases {
  import opened Constantes
  import opened Feu
  import opened Voies
  import opened Options

  /** The four heads, one per direction. */
  type Feux = ParDirection<EtatFeu>

  /**
   * The signal-safety invariant: both heads of an axis show the same colour,
   * and at least one of the two axes is red.
   */
  predicate Securite(fx: Feux)
  {
    fx.n.couleur == fx.s.couleur && fx.e.couleur == fx.o.couleur
    && (fx.n.couleur == Rouge || fx.e.couleur == Rouge)
  }

  /** `set_couleur` on the two North-South heads with `cNS` and on the two East-West heads with `cEO`. */
  function Colorer(fx: Feux, cNS: Couleur, cEO: Couleur): (r: Feux)
    ensures r.n.couleur == cNS && r.s.couleur == cNS && r.e.couleur == cEO && r.o.couleur == cEO
    ensures Securite(r) <==> cNS == Rouge || cEO == Rouge
  {
    ParDirection(AvecCouleur(fx.n, cNS), AvecCouleur(fx.s, cNS), AvecCouleur(fx.e, cEO), AvecCouleur(fx.o, cEO))
  }

  /** The green duration chosen from the demand of the axis about to turn green. */
  function DureeAdaptative(total: nat): (d: int)
    ensures total == 0 <==> d == 10
    ensures 1 <= total <= 3 <==> d == 15
    ensures 4 <= total <= 7 <==> d == 25
    ensures total >= 8 <==> d == 35
  {
    if total == 0 then 10
    else if total <= 3 then 15
    else if total <= 7 then 25
    else 35
  }

  /** A heavier demand never earns a shorter green. */
  lemma DureeCroissante(a: nat, b: nat)
    requires a <= b
    ensures DureeAdaptative(a) <= DureeAdaptative(b)
  {
  }

  /** `deque.append` with `maxlen = TAILLE_HISTORIQUE_TRAFIC`: the oldest entry goes once the history is full. */
  function AjouterBorne(h: seq<int>, x: int): (r: seq<int>)
    requires |h| <= TAILLE_HISTORIQUE_TRAFIC
    ensures |r| <= TAILLE_HISTORIQUE_TRAFIC && |r| > 0 && r[|r| - 1] == x
    ensures |h| < TAILLE_HISTORIQUE_TRAFIC ==> r == h + [x]
    ensures |h| == TAILLE_HISTORIQUE_TRAFIC ==> |r| == |h| && r[..|r| - 1] == h[1..]
  {
    if |h| < TAILLE_HISTORIQUE_TRAFIC then h + [x] else h[1..] + [x]
  }

  /** A head given a green of `duree` seconds: the duration is stored, then `set_couleur("Vert")`. */
  function VertPendant(e: EtatFeu, duree: int): (r: EtatFeu)
    ensures r.couleur == Vert && r.tempsRestant == duree && r.dureeVerteActuelle == duree
    ensures r.(couleur := e.couleur, tempsRestant := e.tempsRestant, dureeVerteActuelle := e.dureeVerteActuelle) == e
  {
    AvecCouleur(e.(dureeVerteActuelle := duree), Vert)
  }

  /**
   * `passer_ns_vert` / `passer_eo_vert` on the heads: the axis receives the
   * green duration, its two heads turn green and the crossing axis turns red.
   */
  function AxeVert(fx: Feux, ns: bool, duree: int): (r: Feux)
    ensures Securite(r)
    ensures ns ==> r.n.couleur == Vert && r.s.couleur == Vert && r.e.couleur == Rouge && r.o.couleur == Rouge
    ensures ns ==> r.n.tempsRestant == duree && r.s.tempsRestant == duree
    ensures ns ==> r.n.dureeVerteActuelle == duree && r.s.dureeVerteActuelle == duree
    ensures !ns ==> r.e.couleur == Vert && r.o.couleur == Vert && r.n.couleur == Rouge && r.s.couleur == Rouge
    ensures !ns ==> r.e.tempsRestant == duree && r.o.tempsRestant == duree
    ensures !ns ==> r.e.dureeVerteActuelle == duree && r.o.dureeVerteActuelle == duree
  {
    if ns then ParDirection(VertPendant(fx.n, duree), VertPendant(fx.s, duree), AvecCouleur(fx.e, Rouge), AvecCouleur(fx.o, Rouge))
    else ParDirection(AvecCouleur(fx.n, Rouge), AvecCouleur(fx.s, Rouge), VertPendant(fx.e, duree), VertPendant(fx.o, duree))
  }

  /** The green transition paints exactly the colours of `Colorer`. */
  lemma AxeVertColore(fx: Feux, ns: bool, duree: int)
    ensures ns ==> AxeVert(fx, ns, duree).(n := fx.n, s := fx.s) == Colorer(fx, Vert, Rouge).(n := fx.n, s := fx.s)
    ensures !ns ==> AxeVert(fx, ns, duree).(e := fx.e, o := fx.o) == Colorer(fx, Rouge, Vert).(e := fx.e, o := fx.o)
  {
  }

  /** A head turning red starts its crossing when one was requested and none is running. */
  function PietonSiDemande(e: EtatFeu): (r: EtatFeu)
    ensures e.demandePieton && !e.pietonVert ==> r == PietonDemarre(e)
    ensures !(e.demandePieton && !e.pietonVert) ==> r == e
    ensures r.couleur == e.couleur
  {
    if e.demandePieton && !e.pietonVert then PietonDemarre(e) else e
  }

  /** End of an orange phase: the axis turns red and serves its pending crossings. */
  function FinOrange(fx: Feux, ns: bool): (r: Feux)
    ensures ns ==> r.n == PietonSiDemande(AvecCouleur(fx.n, Rouge)) && r.s == PietonSiDemande(AvecCouleur(fx.s, Rouge))
    ensures ns ==> r.e == fx.e && r.o == fx.o
    ensures !ns ==> r.e == PietonSiDemande(AvecCouleur(fx.e, Rouge)) && r.o == PietonSiDemande(AvecCouleur(fx.o, Rouge))
    ensures !ns ==> r.n == fx.n && r.s == fx.s
  {
    if ns then fx.(n := PietonSiDemande(AvecCouleur(fx.n, Rouge)), s := PietonSiDemande(AvecCouleur(fx.s, Rouge)))
    else fx.(e := PietonSiDemande(AvecCouleur(fx.e, Rouge)), o := PietonSiDemande(AvecCouleur(fx.o, Rouge)))
  }

  /** One second on every head (`reduire_temps` four times). */
  function Decompte(fx: Feux): (r: Feux)
    ensures r.n.couleur == fx.n.couleur && r.s.couleur == fx.s.couleur
    ensures r.e.couleur == fx.e.couleur && r.o.couleur == fx.o.couleur
    ensures Securite(r) <==> Securite(fx)
  {
    ParDirection(Decompter(fx.n), Decompter(fx.s), Decompter(fx.e), Decompter(fx.o))
  }

  /**
   * While an ambulance has priority, the green of its axis is held: once the
   * axis's first head has less than 3 s left, both heads go back to 10 s.
   */
  function Prolonge(fx: Feux, ambulance: Option<Dir>): (r: Feux)
    ensures r.n.couleur == fx.n.couleur && r.s.couleur == fx.s.couleur
    ensures r.e.couleur == fx.e.couleur && r.o.couleur == fx.o.couleur
    ensures Securite(r) <==> Securite(fx)
    ensures ambulance.None? ==> r == fx
    ensures ambulance.Some? && AxeNS(ambulance.value) && fx.n.tempsRestant < 3 ==>
              r.n.tempsRestant == 10 && r.s.tempsRestant == 10 && r.e == fx.e && r.o == fx.o
    ensures ambulance.Some? && !AxeNS(ambulance.value) && fx.e.tempsRestant < 3 ==>
              r.e.tempsRestant == 10 && r.o.tempsRestant == 10 && r.n == fx.n && r.s == fx.s
    ensures ambulance.Some? && AxeNS(ambulance.value) && fx.n.tempsRestant >= 3 ==> r == fx
    ensures ambulance.Some? && !AxeNS(ambulance.value) && fx.e.tempsRestant >= 3 ==> r == fx
  {
    match ambulance
    case None => fx
    case Some(d) =>
      if AxeNS(d) then
        if fx.n.tempsRestant < 3 then fx.(n := fx.n.(tempsRestant := 10), s := fx.s.(tempsRestant := 10)) else fx
      else
        if fx.e.tempsRestant < 3 then fx.(e := fx.e.(tempsRestant := 10), o := fx.o.(tempsRestant := 10)) else fx
  }

  /** A head forced green for an ambulance: `set_couleur("Vert")`, then a 30 s duration and countdown. */
  function ForceVert(e: EtatFeu): (r: EtatFeu)
    ensures r.couleur == Vert && r.tempsRestant == 30 && r.dureeVerteActuelle == 30
  {
    AvecCouleur(e, Vert).(dureeVerteActuelle := 30, tempsRestant := 30)
  }

  /**
   * Absolute priority for an ambulance detected on queue `d`: its axis turns
   * green at once with a 30 s green, and the crossing axis turns red.
   */
  function Priorite(fx: Feux, d: Dir): (r: Feux)
    ensures Securite(r)
    ensures r.Get(d).couleur == Vert && r.Get(d).tempsRestant == 30 && r.Get(d).dureeVerteActuelle == 30
  {
    if AxeNS(d) then ParDirection(ForceVert(fx.n), ForceVert(fx.s), AvecCouleur(fx.e, Rouge), AvecCouleur(fx.o, Rouge))
    else ParDirection(AvecCouleur(fx.n, Rouge), AvecCouleur(fx.s, Rouge), ForceVert(fx.e), ForceVert(fx.o))
  }

  /**
   * Forcing a green for an ambulance leaves the heads exactly as an ordinary
   * transition to that axis with a 30 s green would.
   */
  lemma PrioriteCommeAxeVert(fx: Feux, d: Dir)
    ensures Priorite(fx, d) == AxeVert(fx, AxeNS(d), 30)
  {
  }

  /** The part of the controller's state the phase logic reads and writes. */
  datatype Tour = Tour(feux: Feux, phase: Phase, cycleCount: int, historiqueNS: seq<int>, historiqueEO: seq<int>)
  {
    ghost predicate Valide()
    {
      Securite(feux) && |historiqueNS| <= TAILLE_HISTORIQUE_TRAFIC && |historiqueEO| <= TAILLE_HISTORIQUE_TRAFIC
    }
  }

  /** `passer_ns_vert`: one more cycle, the adaptive green for North-South, its demand recorded. */
  function PasserNS(t: Tour, dem: Demandes): (r: Tour)
    requires |t.historiqueNS| <= TAILLE_HISTORIQUE_TRAFIC
    ensures r.feux == AxeVert(t.feux, true, DureeAdaptative(dem.TotalNS()))
    ensures r.phase == NsVert && r.cycleCount == t.cycleCount + 1
    ensures r.historiqueNS == AjouterBorne(t.historiqueNS, dem.TotalNS()) && r.historiqueEO == t.historiqueEO
  {
    var total := dem.TotalNS();
    Tour(AxeVert(t.feux, true, DureeAdaptative(total)), NsVert, t.cycleCount + 1,
         AjouterBorne(t.historiqueNS, total), t.historiqueEO)
  }

  /** A heavier North-South demand never earns North-South a shorter green at `passer_ns_vert`. */
  lemma PasserNSMonotone(t: Tour, faible: Demandes, forte: Demandes)
    requires |t.historiqueNS| <= TAILLE_HISTORIQUE_TRAFIC
    requires faible.TotalNS() <= forte.TotalNS()
    ensures PasserNS(t, faible).feux.n.tempsRestant <= PasserNS(t, forte).feux.n.tempsRestant
    ensures PasserNS(t, faible).feux.s.tempsRestant <= PasserNS(t, forte).feux.s.tempsRestant
  {
    DureeCroissante(faible.TotalNS(), forte.TotalNS());
  }

  /** A heavier East-West demand never earns East-West a shorter green at `passer_eo_vert`. */
  lemma PasserEOMonotone(t: Tour, faible: Demandes, forte: Demandes)
    requires |t.historiqueEO| <= TAILLE_HISTORIQUE_TRAFIC
    requires faible.TotalEO() <= forte.TotalEO()
    ensures PasserEO(t, faible).feux.e.tempsRestant <= PasserEO(t, forte).feux.e.tempsRestant
    ensures PasserEO(t, faible).feux.o.tempsRestant <= PasserEO(t, forte).feux.o.tempsRestant
  {
    DureeCroissante(faible.TotalEO(), forte.TotalEO());
  }

  /** `passer_eo_vert`: the adaptive green for East-West, its demand recorded; the cycle count stays. */
  function PasserEO(t: Tour, dem: Demandes): (r: Tour)
    requires |t.historiqueEO| <= TAILLE_HISTORIQUE_TRAFIC
    ensures r.feux == AxeVert(t.feux, false, DureeAdaptative(dem.TotalEO()))
    ensures r.phase == EoVert && r.cycleCount == t.cycleCount
    ensures r.historiqueEO == AjouterBorne(t.historiqueEO, dem.TotalEO()) && r.historiqueNS == t.historiqueNS
  {
    var total := dem.TotalEO();
    Tour(AxeVert(t.feux, false, DureeAdaptative(total)), EoVert, t.cycleCount,
         t.historiqueNS, AjouterBorne(t.historiqueEO, total))
  }

  /**
   * Early end of a North-South green: no North-South demand, East-West cars
   * waiting, and more than 5 s of the green already used. It never fires
   * while North-South has demand, while no East-West car waits, or during the
   * first 5 s of the green.
   */
  function AnticipeNS(fx: Feux, dem: Demandes): (r: bool)
    ensures dem.TotalNS() > 0 ==> !r
    ensures dem.attenteEO == 0 ==> !r
    ensures fx.n.tempsRestant >= fx.n.dureeVerteActuelle - 5 ==> !r
  {
    dem.TotalNS() == 0 && dem.attenteEO > 0 && fx.n.tempsRestant < fx.n.dureeVerteActuelle - 5
  }

  /** The East-West mirror of `AnticipeNS`. */
  function AnticipeEO(fx: Feux, dem: Demandes): (r: bool)
    ensures dem.TotalEO() > 0 ==> !r
    ensures dem.attenteNS == 0 ==> !r
    ensures fx.e.tempsRestant >= fx.e.dureeVerteActuelle - 5 ==> !r
  {
    dem.TotalEO() == 0 && dem.attenteNS > 0 && fx.e.tempsRestant < fx.e.dureeVerteActuelle - 5
  }

  /**
   * `traiter_phase_normale`: frozen while an ambulance has priority; otherwise
   * a green ends on expiry (or early, see `AnticipeNS`) with both heads
   * orange, and an orange ends on expiry with the axis red, its pending
   * crossings started and the other axis green.
   */
  function PhaseNormale(t: Tour, dem: Demandes, ambulance: Option<Dir>): (r: Tour)
    requires t.Valide()
    ensures r.Valide()
  {
    if ambulance.Some? then t
    else
      var fx := t.feux;
      match t.phase
      case NsVert =>
        // A forced end sets the countdown to 0 first; `set_couleur` then overwrites it.
        if AnticipeNS(fx, dem) || fx.n.tempsRestant == 0 then t.(feux := Colorer(fx, Orange, Rouge), phase := NsOrange)
        else t
      case NsOrange =>
        if fx.n.tempsRestant == 0 then PasserEO(t.(feux := FinOrange(fx, true)), dem) else t
      case EoVert =>
        if AnticipeEO(fx, dem) || fx.e.tempsRestant == 0 then t.(feux := Colorer(fx, Rouge, Orange), phase := EoOrange)
        else t
      case EoOrange =>
        if fx.e.tempsRestant == 0 then PasserNS(t.(feux := FinOrange(fx, false)), dem) else t
  }

  /**
   * One second of `update_simulation` while running: every head counts down,
   * the green of an ambulance's axis is held, then the phase logic runs.
   */
  function Seconde(t: Tour, dem: Demandes, ambulance: Option<Dir>): (r: Tour)
    requires t.Valide()
    ensures r.Valide()
    ensures ambulance.Some? ==> r.phase == t.phase && r.cycleCount == t.cycleCount
    ensures r.cycleCount == t.cycleCount || r.cycleCount == t.cycleCount + 1
  {
    PhaseNormale(t.(feux := Prolonge(Decompte(t.feux), ambulance)), dem, ambulance)
  }

  /**
   * The restart after an accident: the axis with the larger demand, North-South
   * on a tie, turns green as `passer_ns_vert` / `passer_eo_vert` would.
   */
  function Reprise(t: Tour, dem: Demandes): (r: Tour)
    requires t.Valide()
    ensures r.Valide()
    ensures dem.TotalNS() >= dem.TotalEO() ==> r.phase == NsVert && r.feux.n.couleur == Vert && r.feux.e.couleur == Rouge
    ensures dem.TotalNS() < dem.TotalEO() ==> r.phase == EoVert && r.feux.e.couleur == Vert && r.feux.n.couleur == Rouge
  {
    if dem.TotalNS() >= dem.TotalEO() then PasserNS(t, dem) else PasserEO(t, dem)
  }

  /** While an ambulance has priority the phase logic changes nothing. */
  lemma GelSousPriorite(t: Tour, dem: Demandes, d: Dir)
    requires t.Valide()
    ensures PhaseNormale(t, dem, Some(d)) == t
  {
  }

  /**
   * A North-South green ends, turning both North-South heads orange and
   * keeping East-West red, exactly when it has run out or ends early
   * (`AnticipeNS`); otherwise the phase logic leaves everything alone.
   */
  lemma FinDuVertNS(t: Tour, dem: Demandes)
    requires t.Valide() && t.phase == NsVert
    ensures PhaseNormale(t, dem, None).phase == NsOrange <==> t.feux.n.tempsRestant == 0 || AnticipeNS(t.feux, dem)
    ensures t.feux.n.tempsRestant == 0 || AnticipeNS(t.feux, dem) ==>
              PhaseNormale(t, dem, None) == t.(feux := Colorer(t.feux, Orange, Rouge), phase := NsOrange)
              && PhaseNormale(t, dem, None).feux.n.couleur == Orange
              && PhaseNormale(t, dem, None).feux.e.couleur == Rouge
    ensures !(t.feux.n.tempsRestant == 0 || AnticipeNS(t.feux, dem)) ==> PhaseNormale(t, dem, None) == t
  {
  }

  /** The East-West mirror of `FinDuVertNS`. */
  lemma FinDuVertEO(t: Tour, dem: Demandes)
    requires t.Valide() && t.phase == EoVert
    ensures PhaseNormale(t, dem, None).phase == EoOrange <==> t.feux.e.tempsRestant == 0 || AnticipeEO(t.feux, dem)
    ensures t.feux.e.tempsRestant == 0 || AnticipeEO(t.feux, dem) ==>
              PhaseNormale(t, dem, None) == t.(feux := Colorer(t.feux, Rouge, Orange), phase := EoOrange)
              && PhaseNormale(t, dem, None).feux.e.couleur == Orange
              && PhaseNormale(t, dem, None).feux.n.couleur == Rouge
    ensures !(t.feux.e.tempsRestant == 0 || AnticipeEO(t.feux, dem)) ==> PhaseNormale(t, dem, None) == t
  {
  }

  /**
   * An orange that has run out hands the green to the other axis, with the
   * adaptive duration, and a crossing requested on a North-South head is
   * running once the axis is red.
   */
  lemma FinOrangeNS(t: Tour, dem: Demandes)
    requires t.Valide() && t.phase == NsOrange && t.feux.n.tempsRestant == 0
    ensures PhaseNormale(t, dem, None).phase == EoVert
    ensures PhaseNormale(t, dem, None).feux.e.couleur == Vert && PhaseNormale(t, dem, None).feux.n.couleur == Rouge
    ensures PhaseNormale(t, dem, None).feux.e.tempsRestant == DureeAdaptative(dem.TotalEO())
    ensures t.feux.n.demandePieton ==> PhaseNormale(t, dem, None).feux.n.pietonVert
    ensures t.feux.s.demandePieton ==> PhaseNormale(t, dem, None).feux.s.pietonVert
  {
  }

  /** An orange whose countdown is still running is left alone, on either axis. */
  lemma OrangeEnCours(t: Tour, dem: Demandes)
    requires t.Valide()
    requires (t.phase == NsOrange && t.feux.n.tempsRestant != 0) || (t.phase == EoOrange && t.feux.e.tempsRestant != 0)
    ensures PhaseNormale(t, dem, None) == t
  {
  }

  /** The East-West mirror of `FinOrangeNS`; it also starts a new cycle. */
  lemma FinOrangeEO(t: Tour, dem: Demandes)
    requires t.Valide() && t.phase == EoOrange && t.feux.e.tempsRestant == 0
    ensures PhaseNormale(t, dem, None).phase == NsVert
    ensures PhaseNormale(t, dem, None).cycleCount == t.cycleCount + 1
    ensures PhaseNormale(t, dem, None).feux.n.couleur == Vert && PhaseNormale(t, dem, None).feux.e.couleur == Rouge
    ensures PhaseNormale(t, dem, None).feux.n.tempsRestant == DureeAdaptative(dem.TotalNS())
    ensures t.feux.e.demandePieton ==> PhaseNormale(t, dem, None).feux.e.pietonVert
    ensures t.feux.o.demandePieton ==> PhaseNormale(t, dem, None).feux.o.pietonVert
  {
  }
}
