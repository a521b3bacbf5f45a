/**
 * One signal head and its pedestrian light (feu_tricolore/feu.py).
 *
 * The value type `EtatFeu` collects every field of a head; each operation of
 * the source is first a function from the old value to the new one, and the
 * class `Feu` updates its fields in place so that `Etat()` follows that
 * function. The properties of the operations are stated on the functions.
 */
module Feu {
  import opened Constantes

  datatype Couleur = Rouge | Orange | Vert

  datatype EtatFeu = EtatFeu(
    couleur: Couleur,
    dureeVerteBase: int,
    dureeVerteActuelle: int,
    dureeOrange: int,
    tempsRestant: int,
    compteurCycles: int,
    historiqueTempsVert: seq<int>,
    enUrgence: bool,
    demandePieton: bool,
    pietonVert: bool,
    tempsPietonRestant: int,
    dureePietonMin: int)

  /** A new head: its colour, a green of `dureeVerte` seconds, a 3 s orange, a countdown at 0, no crossing. */
  function EtatInitial(couleur: Couleur, dureeVerte: int := 30, dureePietonMin: int := 7): (r: EtatFeu)
    ensures r.couleur == couleur && r.dureeOrange == 3 && r.tempsRestant == 0
    ensures !r.demandePieton && !r.pietonVert && !r.enUrgence
    ensures r.dureeVerteBase == dureeVerte && r.dureeVerteActuelle == dureeVerte
    ensures r.compteurCycles == 0 && r.historiqueTempsVert == []
    ensures r.tempsPietonRestant == 0 && r.dureePietonMin == dureePietonMin
  {
    EtatFeu(couleur, dureeVerte, dureeVerte, 3, 0, 0, [], false, false, false, 0, dureePietonMin)
  }

  /** The `duree_rouge` property: the default red hold. */
  function DureeRouge(e: EtatFeu): int
  {
    e.dureeVerteActuelle + e.dureeOrange
  }

  /** `set_couleur`: the colour and a colour-dependent countdown; nothing else changes. */
  function AvecCouleur(e: EtatFeu, c: Couleur): (r: EtatFeu)
    ensures r.couleur == c
    ensures c == Vert ==> r.tempsRestant == e.dureeVerteActuelle
    ensures c == Orange ==> r.tempsRestant == e.dureeOrange
    ensures c == Rouge ==> r.tempsRestant == e.dureeVerteActuelle + e.dureeOrange
    ensures r.(couleur := e.couleur, tempsRestant := e.tempsRestant) == e
  {
    var t := match c
      case Vert => e.dureeVerteActuelle
      case Orange => e.dureeOrange
      case Rouge => DureeRouge(e);
    e.(couleur := c, tempsRestant := t)
  }

  /** `end_pieton_phase`. */
  function PietonTermine(e: EtatFeu): (r: EtatFeu)
    ensures !r.pietonVert && r.tempsPietonRestant == 0
    ensures r.(pietonVert := e.pietonVert, tempsPietonRestant := e.tempsPietonRestant) == e
  {
    e.(pietonVert := false, tempsPietonRestant := 0)
  }

  /** `reduire_temps`: one second of both countdowns. */
  function Decompter(e: EtatFeu): (r: EtatFeu)
    ensures r.tempsRestant == if e.tempsRestant > 0 then e.tempsRestant - 1 else e.tempsRestant
    ensures e.tempsRestant >= 0 ==> r.tempsRestant >= 0
    ensures e.tempsPietonRestant > 0 ==> r.tempsPietonRestant == e.tempsPietonRestant - 1
    ensures e.tempsPietonRestant <= 0 ==> r.tempsPietonRestant == e.tempsPietonRestant && r.pietonVert == e.pietonVert
    ensures e.tempsPietonRestant == 1 ==> !r.pietonVert
    ensures e.tempsPietonRestant > 1 ==> r.pietonVert == e.pietonVert
    ensures r.(tempsRestant := e.tempsRestant, tempsPietonRestant := e.tempsPietonRestant, pietonVert := e.pietonVert) == e
  {
    var e1 := if e.tempsRestant > 0 then e.(tempsRestant := e.tempsRestant - 1) else e;
    if e1.tempsPietonRestant > 0 then
      var e2 := e1.(tempsPietonRestant := e1.tempsPietonRestant - 1);
      if e2.tempsPietonRestant == 0 then PietonTermine(e2) else e2
    else e1
  }

  /** `ajuster_duree_verte`: a small bonus above level 7. */
  function DureeVerteAjustee(e: EtatFeu, niveauTrafic: int): (r: EtatFeu)
    ensures niveauTrafic > 7 ==> r.dureeVerteActuelle == e.dureeVerteBase + 2
    ensures niveauTrafic <= 7 ==> r.dureeVerteActuelle == e.dureeVerteBase
    ensures r.(dureeVerteActuelle := e.dureeVerteActuelle) == e
  {
    e.(dureeVerteActuelle := if niveauTrafic > 7 then e.dureeVerteBase + 2 else e.dureeVerteBase)
  }

  /** `enregistrer_temps_vert`: one more history entry. */
  function AvecTempsVertEnregistre(e: EtatFeu): (r: EtatFeu)
    ensures |r.historiqueTempsVert| == |e.historiqueTempsVert| + 1
    ensures r.historiqueTempsVert[..|e.historiqueTempsVert|] == e.historiqueTempsVert
    ensures r.historiqueTempsVert[|e.historiqueTempsVert|] == e.dureeVerteActuelle
    ensures r.(historiqueTempsVert := e.historiqueTempsVert) == e
  {
    e.(historiqueTempsVert := e.historiqueTempsVert + [e.dureeVerteActuelle])
  }

  /** `mode_urgence(en_cours)`: red in both cases, with a 10 s or a 1 s hold. */
  function EnUrgence(e: EtatFeu, enCours: bool): (r: EtatFeu)
    ensures r.couleur == Rouge && r.enUrgence == enCours
    ensures r.tempsRestant == if enCours then 10 else 1
    ensures r.(couleur := e.couleur, tempsRestant := e.tempsRestant, enUrgence := e.enUrgence) == e
  {
    if enCours then
      AvecCouleur(e.(enUrgence := true), Rouge).(tempsRestant := 10)
    else
      AvecCouleur(e.(enUrgence := false), Rouge).(tempsRestant := 1, enUrgence := false)
  }

  /** `start_pieton_phase`: the crossing starts and the red hold is stretched to cover it. */
  function PietonDemarre(e: EtatFeu): (r: EtatFeu)
    ensures r.pietonVert && !r.demandePieton
    ensures r.tempsPietonRestant == if e.dureePietonMin > 0 then e.dureePietonMin else 0
    ensures r.tempsRestant >= e.tempsRestant && r.tempsRestant >= r.tempsPietonRestant
    ensures r.tempsRestant == e.tempsRestant || r.tempsRestant == r.tempsPietonRestant
    ensures r.(pietonVert := e.pietonVert, demandePieton := e.demandePieton,
               tempsPietonRestant := e.tempsPietonRestant, tempsRestant := e.tempsRestant) == e
  {
    var p := if e.dureePietonMin > 0 then e.dureePietonMin else 0;
    var e1 := e.(pietonVert := true, demandePieton := false, tempsPietonRestant := p);
    if e1.tempsRestant < p then e1.(tempsRestant := p) else e1
  }

  /** `request_pieton`: serve at once on red, otherwise remember the call. */
  function ApresDemandePieton(e: EtatFeu): (r: EtatFeu)
    ensures r.couleur == e.couleur
    ensures e.couleur == Rouge && !e.pietonVert ==> r == PietonDemarre(e)
    ensures e.couleur == Rouge && e.pietonVert ==> r == e
    ensures e.couleur != Rouge ==> r == e.(demandePieton := true)
  {
    if e.couleur == Rouge then
      if !e.pietonVert then PietonDemarre(e) else e
    else
      e.(demandePieton := true)
  }

  /** While a crossing runs, the vehicle countdown is at least the pedestrian one. */
  ghost predicate RougeCouvrePieton(e: EtatFeu)
  {
    e.pietonVert ==> e.tempsRestant >= e.tempsPietonRestant
  }

  /** Starting a crossing establishes the cover, and a tick keeps it. */
  lemma CouvertureEtablieEtMaintenue(e: EtatFeu)
    ensures RougeCouvrePieton(PietonDemarre(e))
    ensures RougeCouvrePieton(e) && e.tempsPietonRestant >= 0 ==> RougeCouvrePieton(Decompter(e))
  {
  }

  /** `n` calls of `reduire_temps`. */
  function DecompterN(e: EtatFeu, n: nat): EtatFeu
    decreases n
  {
    if n == 0 then e else DecompterN(Decompter(e), n - 1)
  }

  /**
   * A crossing with `k` seconds left stays active for exactly `k` ticks, the
   * colour never changes meanwhile, and the cover of the red hold persists.
   */
  lemma {:induction false} DureeTraversee(e: EtatFeu, k: nat, j: nat)
    requires e.pietonVert && e.tempsPietonRestant == k && 1 <= k && j <= k
    requires RougeCouvrePieton(e)
    ensures DecompterN(e, j).couleur == e.couleur
    ensures DecompterN(e, j).tempsPietonRestant == k - j
    ensures DecompterN(e, j).pietonVert <==> j < k
    ensures RougeCouvrePieton(DecompterN(e, j))
    decreases j
  {
    if j > 0 {
      var e1 := Decompter(e);
      if k == 1 {
        assert j == 1;
        assert DecompterN(e1, 0) == e1;
      } else {
        DureeTraversee(e1, k - 1, j - 1);
      }
    }
  }

  class Feu {
    const sens: Dir
    var couleur: Couleur
    const dureeVerteBase: int
    var dureeVerteActuelle: int
    const dureeOrange: int
    var tempsRestant: int
    var compteurCycles: int
    var historiqueTempsVert: seq<int>
    var enUrgence: bool
    var demandePieton: bool
    var pietonVert: bool
    var tempsPietonRestant: int
    const dureePietonMin: int

    function Etat(): EtatFeu
      reads this
    {
      EtatFeu(couleur, dureeVerteBase, dureeVerteActuelle, dureeOrange, tempsRestant,
              compteurCycles, historiqueTempsVert, enUrgence, demandePieton, pietonVert,
              tempsPietonRestant, dureePietonMin)
    }

    constructor (sens: Dir, couleurInitiale: Couleur := Rouge, dureeVerte: int := 30, dureePietonMin: int := 7)
      ensures this.sens == sens
      ensures Etat() == EtatInitial(couleurInitiale, dureeVerte, dureePietonMin)
    {
      this.sens := sens;
      couleur := couleurInitiale;
      dureeVerteBase := dureeVerte;
      dureeVerteActuelle := dureeVerte;
      dureeOrange := 3;
      tempsRestant := 0;
      compteurCycles := 0;
      historiqueTempsVert := [];
      enUrgence := false;
      demandePieton := false;
      pietonVert := false;
      tempsPietonRestant := 0;
      this.dureePietonMin := dureePietonMin;
    }

    method SetCouleur(nouvelleCouleur: Couleur)
      modifies this
      ensures Etat() == AvecCouleur(old(Etat()), nouvelleCouleur)
    {
      couleur := nouvelleCouleur;
      match nouvelleCouleur
      case Vert => tempsRestant := dureeVerteActuelle;
      case Orange => tempsRestant := dureeOrange;
      case Rouge => tempsRestant := dureeVerteActuelle + dureeOrange;
    }

    method ReduireTemps()
      modifies this
      ensures Etat() == Decompter(old(Etat()))
    {
      if tempsRestant > 0 {
        tempsRestant := tempsRestant - 1;
      }
      if tempsPietonRestant > 0 {
        tempsPietonRestant := tempsPietonRestant - 1;
        if tempsPietonRestant == 0 {
          EndPietonPhase();
        }
      }
    }

    method AjusterDureeVerte(niveauTrafic: int)
      modifies this
      ensures Etat() == DureeVerteAjustee(old(Etat()), niveauTrafic)
    {
      if niveauTrafic > 7 {
        dureeVerteActuelle := dureeVerteBase + 2;
      } else {
        dureeVerteActuelle := dureeVerteBase;
      }
    }

    method EnregistrerTempsVert()
      modifies this
      ensures Etat() == AvecTempsVertEnregistre(old(Etat()))
    {
      historiqueTempsVert := historiqueTempsVert + [dureeVerteActuelle];
    }

    method ModeUrgence(enCours: bool := true)
      modifies this
      ensures Etat() == EnUrgence(old(Etat()), enCours)
    {
      enUrgence := enCours;
      if enCours {
        SetCouleur(Rouge);
        tempsRestant := 10;
      } else {
        SetCouleur(Rouge);
        tempsRestant := 1;
        enUrgence := false;
      }
    }

    /** Always accepts the call; the result is the source's constant `True`. */
    method RequestPieton() returns (accepte: bool)
      modifies this
      ensures accepte
      ensures Etat() == ApresDemandePieton(old(Etat()))
    {
      if couleur == Rouge {
        if !pietonVert {
          StartPietonPhase();
        }
      } else {
        demandePieton := true;
      }
      accepte := true;
    }

    method StartPietonPhase()
      modifies this
      ensures Etat() == PietonDemarre(old(Etat()))
    {
      pietonVert := true;
      demandePieton := false;
      tempsPietonRestant := if dureePietonMin > 0 then dureePietonMin else 0;
      if tempsRestant < tempsPietonRestant {
        tempsRestant := tempsPietonRestant;
      }
    }

    method EndPietonPhase()
      modifies this
      ensures Etat() == PietonTermine(old(Etat()))
    {
      pietonVert := false;
      tempsPietonRestant := 0;
    }
  }
}
