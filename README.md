# Four-way junction controller, modelled in Dafny

This project models the control core of a simulator of a signalised four-way
junction. The core has these parts:

- Four signal heads (North, South, East, West). Each head has a pedestrian light.
- A phase controller. It cycles NS green → NS orange → EO green → EO orange,
  with adaptive green durations.
- A vehicle manager. It holds four queues of vehicles. It spawns vehicles,
  moves them one frame at a time, counts demand, detects collisions and runs
  the accident lifecycle.
- An ambulance manager. It detects an approaching ambulance, gives its axis
  priority and notices when the ambulance has gone through.
- The leaves: the vehicle itself, the two-state weather and the per-direction
  demand generator.

Every random draw, the frame clock and the user's commands are parameters of
the operations.

The modules follow the program's files:

| module | file | form |
|---|---|---|
| `Constantes` | the geometry and timing constants, directions, phases | values |
| `Meteo` | `feu_tricolore/meteo.py` | functions, plus a class `Meteo` |
| `Trafic` | `feu_tricolore/trafic.py` | class `Trafic` |
| `Voiture` | `feu_tricolore/voiture.py` | class `Voiture` and its value view `VueVoiture` |
| `Feu` | `feu_tricolore/feu.py` | value type `EtatFeu` and class `Feu` |
| `Voies` | the read-only scans of `feu_tricolore/gestionnaire_voitures.py` | functions |
| `Circulation` | the movement pass of `update_voitures` | functions |
| `GestionnaireVoitures` | `feu_tricolore/gestionnaire_voitures.py` | class `GestionnaireVoitures` |
| `GestionnaireAmbulances` | `feu_tricolore/gestionnaire_ambulances.py` | class `GestionnaireAmbulances` |
| `Phases` | the phase logic of `main_gui.py` | functions on the tuple `Tour` |
| `Simulation` | `main_gui.py` (`SimulationPygame`) | class `Simulation` |

Each class updates its fields in place. Each of its methods is proved to
leave a value view of its state (`Feu.Etat()`, `GestionnaireVoitures.Vue()`,
`Simulation.TourCourant()`) equal to a function of the old view. The
properties the program promises are then proved about those functions.

The controller's class invariant has two parts:

- `Securite`: both heads of an axis show the same colour, and at least one axis is red.
- The traffic histories are bounded.

Every operation of the controller keeps this invariant.

The vehicle manager's invariant has two parts:

- Every vehicle object sits in exactly one queue, once, and in the queue of its own direction.
- Emergency mode is on exactly while an accident is recorded.

## Behaviour as coded

The model follows the code. In a few places the code does something a reader
might not expect, or something its own comments do not say:

- **Following gap.** `feu_tricolore/meteo.py:52-60` defines a rain factor
  for the safety distance, but nothing calls it. The gap test compares
  against the constant `DISTANCE_SECURITE_VOITURE`, 50 px, in all weather
  (`feu_tricolore/gestionnaire_voitures.py:276-281`,
  `feu_tricolore/constants.py:78`).
- **Ambulance stop.** An active ambulance stops the ordinary vehicles of its
  own axis in their stop bands, as the comment at
  `feu_tricolore/gestionnaire_voitures.py:259` says. Vehicles on the
  crossing axis are not held by it (`:260-265`).
- **Demand bands.** The comment at `feu_tricolore/gestionnaire_voitures.py:553`
  speaks of the 200 px before the junction. The approach test uses
  `ZONE_APPROCHE_DISTANCE`, 300 px (`:554-560`,
  `feu_tricolore/constants.py:195`). That band contains the waiting band of
  `:524-535`, so a waiting vehicle counts twice in its axis's demand.
  `Voies.DoubleComptage` states this.
- **Collisions.** The comment at `feu_tricolore/gestionnaire_voitures.py:459`
  says that vehicles of different directions are compared. The loop at
  `:460-465` compares every pair of the zone list, so two vehicles of the
  same queue are reported too. `Voies.CollisionMemeFile` states this.
- **Accident countdown.** The duration is counted in frames, 300 frames
  (`feu_tricolore/constants.py:91`). The countdown runs once per frame
  (`main_gui.py:459-460`, `feu_tricolore/gestionnaire_voitures.py:489`).
- **Early end of a green.** The comment at `main_gui.py:223` says "green for
  more than 5 s". The test `temps_restant < duree_verte_actuelle - 5` at
  `main_gui.py:224-225` says the same. It uses the literal 5 rather than
  `DELAI_PASSAGE_ANTICIPE` (`feu_tricolore/constants.py:118`), which has the
  same value.
- **Pedestrian margin for ambulances.** The comment at
  `feu_tricolore/gestionnaire_voitures.py:158` lets an ambulance advance up
  to `zone_proche + 20` px while pedestrians cross. The test at `:159-160` is
  reached only once the ambulance is within `zone_proche` (`:152-153`), so
  it never lets the ambulance through. `Voies.MargePietonInoperante` states
  this.
- **Off-screen test.** `est_hors_zone` (`feu_tricolore/voiture.py:277`) is
  never called. Vehicles leave the queues through the `LIMITE_SORTIE_*` tests
  of `update_voitures`. `Voiture.EstHorsZone` models the unused method alone.

## Model

| member | source | states |
|---|---|---|
| `Meteo.Basculer` | feu_tricolore/meteo.py:32-38 | a toggle always moves to the other state |
| `Meteo.BasculerDeuxFois` | feu_tricolore/meteo.py:32-38 | two toggles restore the original state |
| `Meteo.FacteurVitesse` | feu_tricolore/meteo.py:41-49 | the speed factor is 0.7 exactly in the rain and 1.0 exactly in normal weather |
| `Meteo.FacteurDistanceSecurite` | feu_tricolore/meteo.py:52-60 | the safety-distance factor is 1.2 exactly in the rain and 1.0 exactly in normal weather |
| `Meteo.EstPluie` | feu_tricolore/meteo.py:62-65 | it is raining exactly when a toggle would bring normal weather, and exactly when the safety-distance factor is 1.2 |
| `Meteo.EstNormal` | feu_tricolore/meteo.py:67-70 | the weather is normal exactly when a toggle would bring rain, and exactly when the safety-distance factor is 1.0 |
| `Meteo.ExactementUnEtat` | feu_tricolore/meteo.py:62-70 | exactly one of `est_pluie` and `est_normal` holds |
| `Meteo.Meteo.constructor` | feu_tricolore/meteo.py:16-17 | the weather starts normal |
| `Meteo.Meteo.SetPluie` | feu_tricolore/meteo.py:24-26 | afterwards it is raining, whatever the state before |
| `Meteo.Meteo.SetNormal` | feu_tricolore/meteo.py:28-30 | afterwards the weather is normal, whatever the state before |
| `Meteo.Meteo.Toggle` | feu_tricolore/meteo.py:32-38 | the state flips and the new state is returned |
| `Trafic.Trafic.constructor` | feu_tricolore/trafic.py:8-13 | a new generator has level 0, both flags down and a zero counter |
| `Trafic.Trafic.SimulerTrafic` | feu_tricolore/trafic.py:15-22 | the level becomes the draw, within 1..10; the counter never decreases and grows by 0 or by 1 to 3, and only when the draw is below 0.3 |
| `Trafic.Trafic.SimulerPieton` | feu_tricolore/trafic.py:24-31 | a request is reported exactly when the draw is below the probability; the flag can be raised but never lowered |
| `Trafic.Trafic.SimulerUrgence` | feu_tricolore/trafic.py:33-37 | the emergency flag is overwritten with the outcome of the draw |
| `Voiture.VitesseBase` | feu_tricolore/voiture.py:133 | the base speed is positive: 5 for an ambulance and 3 otherwise |
| `Voiture.Vitesse` | feu_tricolore/voiture.py:149-152 | the effective speed is the base speed in normal weather and 0.7 times it in the rain, so it is positive and never above the base speed |
| `Voiture.Deplacee` | feu_tricolore/voiture.py:162-177 | a refused move changes nothing; an allowed move advances the vehicle by exactly its speed along its direction of travel; the position across the lane, the direction and the kind never change |
| `Voiture.JamaisEnArriere` | feu_tricolore/voiture.py:162-177 | any run of moves at a positive speed never takes a vehicle backwards, off its lane or to another direction |
| `Voiture.EstHorsZone` | feu_tricolore/voiture.py:277-290 | a vehicle is inside exactly when both coordinates lie within the screen extended by the margin |
| `Voiture.Voiture.constructor` | feu_tricolore/voiture.py:115-133 | the vehicle starts with the given position, direction and kind |
| `Voiture.Voiture.VitesseEffective` | feu_tricolore/voiture.py:149-152 | the `vitesse` property agrees with the speed rule `Vitesse` |
| `Voiture.Voiture.Deplacer` | feu_tricolore/voiture.py:162-177 | the vehicle after `deplacer` is the one-step move `Deplacee` of the vehicle before |
| `Feu.EtatInitial` | feu_tricolore/feu.py:17-36 | a new head has the given colour, a base and current green both equal to the given green, a 3 s orange, a zero countdown, no cycle counted and an empty green history, no emergency, no call, no crossing and a zero pedestrian countdown, and the given pedestrian minimum |
| `Feu.AvecCouleur` | feu_tricolore/feu.py:38-53 | the colour is set; the countdown is the current green for green, the orange duration for orange and green plus orange for red; no other field changes |
| `Feu.PietonTermine` | feu_tricolore/feu.py:138-142 | the crossing is over with a zero pedestrian countdown; no other field changes |
| `Feu.Decompter` | feu_tricolore/feu.py:55-63 | the countdown drops by one when positive and never goes below zero; a positive pedestrian countdown drops by one and the crossing ends exactly when it reaches zero; the colour and every other field are unchanged |
| `Feu.DureeVerteAjustee` | feu_tricolore/feu.py:65-70 | the current green is the base plus 2 above level 7 and the base otherwise; nothing else changes, the colour included |
| `Feu.AvecTempsVertEnregistre` | feu_tricolore/feu.py:72-73 | the history keeps its old entries and gains exactly one, the current green |
| `Feu.EnUrgence` | feu_tricolore/feu.py:80-92 | the head is red in both cases, with a 10 s hold and the flag up when an emergency starts and a 1 s hold and the flag down when it ends |
| `Feu.PietonDemarre` | feu_tricolore/feu.py:116-129 | the crossing runs and the call is cleared; the crossing lasts the minimum, or 0 if that is negative; the red hold is raised to the crossing time when shorter and otherwise unchanged |
| `Feu.ApresDemandePieton` | feu_tricolore/feu.py:97-114 | the colour never changes; on red with no crossing a crossing starts; on red with a crossing nothing changes; on green or orange the call is remembered |
| `Feu.CouvertureEtablieEtMaintenue` | feu_tricolore/feu.py:55-63 | starting a crossing makes the red hold cover it, and a tick keeps that cover |
| `Feu.DureeTraversee` | feu_tricolore/feu.py:55-63 | a crossing with k seconds left is still active after each of the first k - 1 ticks and over after the k-th; meanwhile the colour never changes and the red hold keeps covering it |
| `Feu.Feu.constructor` | feu_tricolore/feu.py:17-36 | the head's state is `EtatInitial` of its arguments |
| `Feu.Feu.SetCouleur` | feu_tricolore/feu.py:43-53 | the head's new state is `AvecCouleur` of the old |
| `Feu.Feu.ReduireTemps` | feu_tricolore/feu.py:55-63 | the head's new state is `Decompter` of the old |
| `Feu.Feu.AjusterDureeVerte` | feu_tricolore/feu.py:65-70 | the head's new state is `DureeVerteAjustee` of the old |
| `Feu.Feu.EnregistrerTempsVert` | feu_tricolore/feu.py:72-73 | the head's new state is `AvecTempsVertEnregistre` of the old |
| `Feu.Feu.ModeUrgence` | feu_tricolore/feu.py:80-92 | the head's new state is `EnUrgence` of the old |
| `Feu.Feu.RequestPieton` | feu_tricolore/feu.py:97-114 | the call is always accepted, and the head's new state is `ApresDemandePieton` of the old |
| `Feu.Feu.StartPietonPhase` | feu_tricolore/feu.py:116-136 | the head's new state is `PietonDemarre` of the old |
| `Feu.Feu.EndPietonPhase` | feu_tricolore/feu.py:138-142 | the head's new state is `PietonTermine` of the old |
| `Voies.DansZoneAttente` | feu_tricolore/gestionnaire_voitures.py:528-546 | definition of the waiting band: a vehicle waits exactly when it is more than 120 px and at most 180 px short of the centre along its own axis |
| `Voies.DansZoneApproche` | feu_tricolore/gestionnaire_voitures.py:554-573 | definition of the approach band: a vehicle approaches exactly when it is strictly between 120 px and 300 px short of the centre along its own axis |
| `Voies.CompterAttente` | feu_tricolore/gestionnaire_voitures.py:524-548 | the waiting count of a queue is at most its length and is zero exactly when no vehicle is in the waiting band |
| `Voies.CompterApproche` | feu_tricolore/gestionnaire_voitures.py:550-574 | the approach count of a queue is at most its length and is zero exactly when no vehicle is in the approach band |
| `Voies.CompterEnAttenteNS` | feu_tricolore/gestionnaire_voitures.py:524-535 | the North-South waiting count is the North count plus the South count, at most the number of North and South vehicles |
| `Voies.CompterEnAttenteEO` | feu_tricolore/gestionnaire_voitures.py:537-548 | the East-West waiting count is the East count plus the West count, at most the number of East and West vehicles |
| `Voies.CompterApprochantNS` | feu_tricolore/gestionnaire_voitures.py:550-561 | the North-South approach count is the North count plus the South count, at most the number of North and South vehicles |
| `Voies.CompterApprochantEO` | feu_tricolore/gestionnaire_voitures.py:563-574 | the East-West approach count is the East count plus the West count, at most the number of East and West vehicles |
| `Voies.DemandeNS` | main_gui.py:296-298 | the North-South demand is the waiting count plus the approach count, at most twice the number of North and South vehicles |
| `Voies.DemandeEO` | main_gui.py:335-337 | the East-West demand is the waiting count plus the approach count, at most twice the number of East and West vehicles |
| `Voies.Demandes.TotalNS` | main_gui.py:296-298 | the North-South total is at least each of its two counts, and zero exactly when both are |
| `Voies.Demandes.TotalEO` | main_gui.py:335-337 | the East-West total is at least each of its two counts, and zero exactly when both are |
| `Voies.DemandesDe` | feu_tricolore/gestionnaire_voitures.py:524-574 | the four counts add up to each axis's demand, and on each axis the waiting count is at most the approach count |
| `Voies.CompterAttenteAjout` | feu_tricolore/gestionnaire_voitures.py:528-534 | counting the waiting band one vehicle at a time, as the loops do, gives the same count |
| `Voies.CompterApprocheAjout` | feu_tricolore/gestionnaire_voitures.py:554-560 | counting the approach band one vehicle at a time, as the loops do, gives the same count |
| `Voies.AttenteDansApproche` | feu_tricolore/gestionnaire_voitures.py:529 | for every direction the waiting band lies inside the approach band |
| `Voies.AttenteAuPlusApproche` | feu_tricolore/gestionnaire_voitures.py:524-574 | in any queue the waiting count is at most the approach count |
| `Voies.AttenteAuPlusApprochantAxes` | feu_tricolore/gestionnaire_voitures.py:524-574 | on each axis the waiting count is at most the approach count |
| `Voies.DoubleComptage` | main_gui.py:296-298 | a single vehicle waiting at the North stop line makes a North-South demand of 2 |
| `Voies.ContientAmbulance` | feu_tricolore/gestionnaire_voitures.py:87-89 | a queue is reported exactly when some vehicle in it is an ambulance |
| `Voies.AmbulanceActive` | feu_tricolore/gestionnaire_voitures.py:85-99 | the result is the first queue, in the order N, S, E, O, that holds an ambulance; no result means no queue holds one |
| `Voies.AucuneVoitureDansZone` | feu_tricolore/gestionnaire_voitures.py:119-133 | a queue is clear exactly when none of its ordinary vehicles is in the central zone |
| `Voies.IntersectionSecurisee` | feu_tricolore/gestionnaire_voitures.py:101-135 | the junction is safe for an ambulance exactly when no ordinary vehicle of any queue is in the central zone |
| `Voies.PeutAmbulanceAvancer` | feu_tricolore/gestionnaire_voitures.py:137-204 | farther than 170 px from the centre an ambulance always advances; closer, with a crossing in use on its axis, it advances only beyond 190 px; otherwise it advances exactly when the junction is safe |
| `Voies.MargePietonInoperante` | feu_tricolore/gestionnaire_voitures.py:151-162 | within 170 px of the centre, with a crossing in use on its axis, an ambulance never advances, so the 20 px margin has no effect |
| `Voies.EntreesDansZone` | feu_tricolore/gestionnaire_voitures.py:443-457 | the zone entries of one queue are exactly its vehicles in the central zone, in queue order |
| `Voies.DansZoneCentrale` | feu_tricolore/gestionnaire_voitures.py:433-457 | a vehicle is in the central zone exactly when it is at most 120 px from the centre along its own axis, on either side |
| `Voies.ListeZone` | feu_tricolore/gestionnaire_voitures.py:439-457 | the zone list holds only vehicles of the queues that are in the central zone, and every such vehicle is in it; it lists the North queue first, then South, East and West, each queue in its own order |
| `Voies.AjoutEnOrdre` | feu_tricolore/gestionnaire_voitures.py:443-457 | appending the entries of a later queue, in queue order, to an ordered zone list keeps it ordered |
| `Voies.Proches` | feu_tricolore/gestionnaire_voitures.py:463 | definition of the collision threshold: two vehicles are close exactly when they are less than 35 px apart across and less than 30 px apart along |
| `Voies.ChercherPaire` | feu_tricolore/gestionnaire_voitures.py:459-466 | the pair found is close, and no pair earlier in the nested-loop order is; no result means no close pair from that point on |
| `Voies.PremiereCollision` | feu_tricolore/gestionnaire_voitures.py:428-466 | a reported pair is two zone vehicles of the queues whose boxes overlap, and it is the first close pair of the zone list in the nested-loop order; no result means no two vehicles of the zone list are close |
| `Voies.PremiereTrouvee` | feu_tricolore/gestionnaire_voitures.py:459-465 | the pair returned by the scan from the start is the first close pair of the list |
| `Voies.CollisionMemeFile` | feu_tricolore/gestionnaire_voitures.py:459-465 | two close vehicles of the same queue inside the zone are reported as a collision |
| `Circulation.DansZoneArret` | feu_tricolore/gestionnaire_voitures.py:262-286 | a vehicle in its stop band is more than 120 px and at most 190 px short of the centre, so never in the central zone |
| `Circulation.Ecart` | feu_tricolore/gestionnaire_voitures.py:276-281 | for two vehicles travelling the way of their queue, the gap is how far ahead the first one is |
| `Circulation.AmbulanceSurAxe` | feu_tricolore/gestionnaire_voitures.py:259-262 | no ambulance holds no queue; an ambulance holds its own queue and the opposite one (one going South holds the North queue, and so on for each pair), never the crossing ones |
| `Circulation.PeutAvancer` | feu_tricolore/gestionnaire_voitures.py:250-288 | an ambulance follows its own rule; an ordinary vehicle advances exactly when it is not within 50 px of the vehicle ahead and it is not in its stop band while its light is not green, a crossing on its axis is in use or an ambulance is on its axis |
| `Circulation.EtapeVoiture` | feu_tricolore/gestionnaire_voitures.py:250-288 | one vehicle takes its decision and moves; every other vehicle of every queue is unchanged |
| `Circulation.EtapesFile` | feu_tricolore/gestionnaire_voitures.py:250-288 | part way through a queue's pass only that queue has changed, its length is kept and the vehicles not yet reached are untouched |
| `Circulation.Reste` | feu_tricolore/gestionnaire_voitures.py:290-291 | a vehicle on the road area, in its stop band or in the junction is never removed |
| `Circulation.Garder` | feu_tricolore/gestionnaire_voitures.py:291 | the exit filter keeps exactly the vehicles still on screen, in order, keeps everything when nothing has left, and on one vehicle keeps it exactly when it is on screen |
| `Circulation.GarderConcat` | feu_tricolore/gestionnaire_voitures.py:291 | the filter of two queues put end to end is the two filters put end to end, so each vehicle is kept or dropped on its own and the survivors keep their order and multiplicity |
| `Circulation.AvancerFile` | feu_tricolore/gestionnaire_voitures.py:248-291 | after one queue's pass the other queues are unchanged and the queue is exactly the on-screen vehicles, in order, of the queue moved vehicle by vehicle; it has not grown |
| `Circulation.MiseAJour` | feu_tricolore/gestionnaire_voitures.py:230-426 | nothing moves in emergency mode; no queue ever grows; outside emergency mode each queue is exactly the on-screen vehicles, in order, of its own pass over the state the earlier passes left, and every vehicle left is on screen |
| `Circulation.Passages` | feu_tricolore/gestionnaire_voitures.py:248-426 | after the first k passes, in the order N, S, E, O, a queue not yet reached is untouched, and a reached queue is what its own pass made of it |
| `Circulation.PassagesBornees` | feu_tricolore/gestionnaire_voitures.py:248-426 | after the first k queue passes no queue has grown, and the queues already stepped hold only on-screen vehicles |
| `Circulation.FigeeApresSonTour` | feu_tricolore/gestionnaire_voitures.py:250-288 | once a vehicle has taken its step, the later steps of its queue leave it alone |
| `Circulation.TourDeLaVoiture` | feu_tricolore/gestionnaire_voitures.py:250-288 | each vehicle ends the pass as its original self moved by the decision taken on the state reached at its turn |
| `Circulation.ArretAuFeu` | feu_tricolore/gestionnaire_voitures.py:283-288 | an ordinary vehicle in its stop band does not move while its light is not green |
| `Circulation.ArretPietons` | feu_tricolore/gestionnaire_voitures.py:267-274 | an ordinary vehicle in its stop band does not move while a crossing on its axis is in use |
| `Circulation.ArretAmbulance` | feu_tricolore/gestionnaire_voitures.py:259-265 | an ordinary vehicle in its stop band does not move while an ambulance is on its axis |
| `Circulation.DistanceDeSecurite` | feu_tricolore/gestionnaire_voitures.py:276-281 | an ordinary vehicle less than 50 px behind the already-moved vehicle ahead does not move |
| `Circulation.PasDeDepassement` | feu_tricolore/gestionnaire_voitures.py:276-288 | an ordinary vehicle never overtakes the vehicle ahead of it in its queue |
| `GestionnaireVoitures.Retirer` | feu_tricolore/gestionnaire_voitures.py:495-496 | a guarded `remove` leaves a queue without the vehicle unchanged and never adds a vehicle |
| `GestionnaireVoitures.RetirerMultiensemble` | feu_tricolore/gestionnaire_voitures.py:495-496 | `remove` takes out exactly one occurrence of a present vehicle and nothing else |
| `GestionnaireVoitures.RetirerDistincts` | feu_tricolore/gestionnaire_voitures.py:495-496 | in a queue without duplicates, `remove` leaves no trace of the vehicle |
| `GestionnaireVoitures.GarderVoitures` | feu_tricolore/gestionnaire_voitures.py:291 | the exit filter on vehicle objects keeps only vehicles of the queue |
| `GestionnaireVoitures.GarderVoituresVue` | feu_tricolore/gestionnaire_voitures.py:291 | filtering the objects keeps exactly the vehicles the value filter `Garder` keeps |
| `GestionnaireVoitures.RetirerDe` | feu_tricolore/gestionnaire_voitures.py:493-496 | each queue loses the vehicle as a guarded `remove` would remove it |
| `GestionnaireVoitures.RetraitBienForme` | feu_tricolore/gestionnaire_voitures.py:493-496 | removing a vehicle from every queue keeps the queues well formed |
| `GestionnaireVoitures.SignauxDe` | feu_tricolore/gestionnaire_voitures.py:241-246 | a head reads as green exactly when its colour is green, and a crossing is in use exactly when its pedestrian light is on |
| `GestionnaireVoitures.PointApparition` | feu_tricolore/gestionnaire_voitures.py:65-83 | each spawn point is an ordinary vehicle of its direction, at least 430 px short of the centre |
| `GestionnaireVoitures.Apparition` | feu_tricolore/gestionnaire_voitures.py:66-68 | a vehicle is appended at the spawn point exactly when the queue is shorter than the level and the draw exceeds 0.4; otherwise the queue is unchanged; the queue never grows past the level by spawning |
| `GestionnaireVoitures.Apparitions` | feu_tricolore/gestionnaire_voitures.py:62-83 | every queue is spawned by the same rule with its own level and draw |
| `GestionnaireVoitures.PositionsInitialesValides` | feu_tricolore/gestionnaire_voitures.py:212-227 | start-up coordinates within the `randint` bounds lie on screen and upstream of every stop band |
| `GestionnaireVoitures.VoitureInitiale` | feu_tricolore/gestionnaire_voitures.py:210-228 | a start-up vehicle is an ordinary vehicle of its direction |
| `GestionnaireVoitures.Initiales` | feu_tricolore/gestionnaire_voitures.py:209-228 | one start-up vehicle per drawn record, in draw order |
| `GestionnaireVoitures.InitialesEnAmont` | feu_tricolore/gestionnaire_voitures.py:209-228 | every start-up vehicle is at least 250 px short of the centre, so it is outside its stop band and outside the central zone |
| `GestionnaireVoitures.Milieu` | feu_tricolore/gestionnaire_voitures.py:471-472 | the accident position is the floor of the midpoint, as Python's `//` gives it |
| `GestionnaireVoitures.ApparitionsEnChaine` | feu_tricolore/gestionnaire_voitures.py:65-83 | the four appends done one after the other give `Apparitions` |
| `GestionnaireVoitures.AvecInitiales` | feu_tricolore/gestionnaire_voitures.py:209-228 | each queue gains the start-up vehicles of its direction after its old vehicles |
| `GestionnaireVoitures.InitialesEnChaine` | feu_tricolore/gestionnaire_voitures.py:209-228 | one more round of four appends extends `AvecInitiales` by one record |
| `GestionnaireVoitures.DeplacerFile` | feu_tricolore/gestionnaire_voitures.py:250-288 | the front-to-back pass over a queue of vehicle objects performs exactly the value-level pass `EtapesFile` |
| `GestionnaireVoitures.DeplacerVoiture` | feu_tricolore/gestionnaire_voitures.py:251-288 | one vehicle takes its decision on the current state and moves; no other vehicle changes |
| `GestionnaireVoitures.AvancerFileObjets` | feu_tricolore/gestionnaire_voitures.py:250-291 | one queue's pass plus its exit filter performs exactly `AvancerFile` and keeps the queues well formed |
| `GestionnaireVoitures.PasserObjets` | feu_tricolore/gestionnaire_voitures.py:248-426 | the four passes in the order N, S, E, O perform exactly `Passages` and keep the queues well formed |
| `GestionnaireVoitures.CompterEnAttenteFile` | feu_tricolore/gestionnaire_voitures.py:528-530 | the counting loop returns the waiting count `CompterAttente` of the queue |
| `GestionnaireVoitures.CompterApprochantFile` | feu_tricolore/gestionnaire_voitures.py:554-556 | the counting loop returns the approach count `CompterApproche` of the queue |
| `GestionnaireVoitures.GestionnaireVoitures.constructor` | feu_tricolore/gestionnaire_voitures.py:35-56 | empty queues, a zero spawn timer and accident counter, no emergency, no accident and no ambulance axis |
| `GestionnaireVoitures.GestionnaireVoitures.Ajouter` | feu_tricolore/gestionnaire_voitures.py:66-68 | a vehicle in no queue is appended to the queue of its direction; the other queues and the other fields are unchanged |
| `GestionnaireVoitures.GestionnaireVoitures.SpawnVoitures` | feu_tricolore/gestionnaire_voitures.py:58-83 | the timer advances; past the interval it resets and the queues become `Apparitions` of the old ones; otherwise they are unchanged; only fresh vehicles are added |
| `GestionnaireVoitures.GestionnaireVoitures.Apparaitre` | feu_tricolore/gestionnaire_voitures.py:65-83 | the four directions' spawn rule is applied to the queues |
| `GestionnaireVoitures.GestionnaireVoitures.AjouterSiTirage` | feu_tricolore/gestionnaire_voitures.py:66-68 | one direction's spawn rule is applied to its queue; the other queues are unchanged |
| `GestionnaireVoitures.GestionnaireVoitures.AjouterNouvelle` | feu_tricolore/gestionnaire_voitures.py:68 | a fresh vehicle at the spawn point is appended to its direction's queue |
| `GestionnaireVoitures.GestionnaireVoitures.SpawnVoituresInitial` | feu_tricolore/gestionnaire_voitures.py:206-228 | for 2 or 3 drawn records, the queues gain exactly `AvecInitiales` of the records |
| `GestionnaireVoitures.GestionnaireVoitures.AjouterInitiale` | feu_tricolore/gestionnaire_voitures.py:211-213 | one start-up vehicle is appended to its direction's queue |
| `GestionnaireVoitures.GestionnaireVoitures.UpdateVoitures` | feu_tricolore/gestionnaire_voitures.py:230-426 | the queues become `MiseAJour` of the old queues, the heads' signals and the weather; no vehicle is added; the ambulance axis is the first queue holding an ambulance, and is left alone in emergency mode |
| `GestionnaireVoitures.GestionnaireVoitures.Passer` | feu_tricolore/gestionnaire_voitures.py:248-426 | the queues become the four passes `Passages` of the old queues |
| `GestionnaireVoitures.GestionnaireVoitures.DetecterCollisions` | feu_tricolore/gestionnaire_voitures.py:428-466 | nothing while an accident is recorded; a reported pair is two vehicles of the reported queues, both in the central zone, whose boxes overlap; no report with no accident means no close pair in the zone list |
| `GestionnaireVoitures.GestionnaireVoitures.DeclencherAccident` | feu_tricolore/gestionnaire_voitures.py:468-482 | the accident is recorded at the floored midpoint with a 300-frame countdown; emergency mode is on; the counter grows by exactly 1; the queues are unchanged |
| `GestionnaireVoitures.GestionnaireVoitures.GererAccident` | feu_tricolore/gestionnaire_voitures.py:484-501 | with no accident, nothing changes and the result is false; otherwise the countdown drops by one; at zero exactly the two vehicles leave every queue, the accident and emergency mode end, and the result is true |
| `GestionnaireVoitures.GestionnaireVoitures.RetirerPartout` | feu_tricolore/gestionnaire_voitures.py:493-496 | the vehicle is removed from every queue that holds it, and the queues stay well formed |
| `GestionnaireVoitures.GestionnaireVoitures.SimulerAccident` | feu_tricolore/gestionnaire_voitures.py:503-522 | refused, with no change, in emergency mode; otherwise an accident at (470, 420) between a North and an East stand-in, which are in no queue, with the counter up by one |
| `GestionnaireVoitures.GestionnaireVoitures.CompterVoituresEnAttenteNS` | feu_tricolore/gestionnaire_voitures.py:524-535 | the loops return the North-South waiting count of the queues |
| `GestionnaireVoitures.GestionnaireVoitures.CompterVoituresEnAttenteEO` | feu_tricolore/gestionnaire_voitures.py:537-548 | the loops return the East-West waiting count of the queues |
| `GestionnaireVoitures.GestionnaireVoitures.CompterVoituresApprochantNS` | feu_tricolore/gestionnaire_voitures.py:550-561 | the loops return the North-South approach count of the queues |
| `GestionnaireVoitures.GestionnaireVoitures.CompterVoituresApprochantEO` | feu_tricolore/gestionnaire_voitures.py:563-574 | the loops return the East-West approach count of the queues |
| `GestionnaireVoitures.GestionnaireVoitures.MesurerNS` | main_gui.py:296-297 | the two North-South counts the controller reads |
| `GestionnaireVoitures.GestionnaireVoitures.MesurerEO` | main_gui.py:335-336 | the two East-West counts the controller reads |
| `GestionnaireVoitures.GestionnaireVoitures.MesurerDemandes` | main_gui.py:464-465 | the four counts are exactly `DemandesDe` of the queues |
| `GestionnaireVoitures.RetraitComplet` | feu_tricolore/gestionnaire_voitures.py:491-496 | once an accident is cleared, neither vehicle is left in a queue and every other vehicle is still in it |
| `GestionnaireAmbulances.DansBandeDetection` | feu_tricolore/gestionnaire_ambulances.py:31-50 | a vehicle is in the detection band exactly when it is strictly between 140 px and 300 px short of the centre |
| `GestionnaireAmbulances.AmbulanceEnBande` | feu_tricolore/gestionnaire_ambulances.py:32-50 | a queue is reported exactly when it holds an ambulance strictly between 300 px and 140 px short of the centre |
| `GestionnaireAmbulances.AmbulanceApprochante` | feu_tricolore/gestionnaire_ambulances.py:23-52 | nothing in emergency mode; otherwise the first direction, in the order N, S, E, O, with an ambulance in its band; no result means no band holds one |
| `GestionnaireAmbulances.PasEncorePassee` | feu_tricolore/gestionnaire_ambulances.py:73-96 | a vehicle holds the priority exactly when it is an ambulance less than 200 px past the centre |
| `GestionnaireAmbulances.EncorePresente` | feu_tricolore/gestionnaire_ambulances.py:66-100 | a queue still holds the priority exactly when one of its ambulances is less than 200 px past the centre |
| `GestionnaireAmbulances.DirDeTag` | feu_tricolore/gestionnaire_ambulances.py:106-117 | "N", "S" and "E" select their queue, and every other tag selects West |
| `GestionnaireAmbulances.AmbulanceApparue` | feu_tricolore/gestionnaire_ambulances.py:106-117 | a spawned ambulance sits at its direction's spawn point, outside the detection band and short of the far-side mark |
| `GestionnaireAmbulances.GestionnaireAmbulances.constructor` | feu_tricolore/gestionnaire_ambulances.py:12-21 | no ambulance counted, none active and no saved phase |
| `GestionnaireAmbulances.GestionnaireAmbulances.ActiverPrioriteAmbulance` | feu_tricolore/gestionnaire_ambulances.py:54-64 | a repeat of the active direction returns nothing and changes nothing; otherwise the direction becomes active and is returned; the phase is saved only on the first activation |
| `GestionnaireAmbulances.GestionnaireAmbulances.DetecterAmbulanceApprochant` | feu_tricolore/gestionnaire_ambulances.py:23-52 | the four scanning loops return exactly `AmbulanceApprochante` |
| `GestionnaireAmbulances.GestionnaireAmbulances.VerifierAmbulancePassee` | feu_tricolore/gestionnaire_ambulances.py:66-100 | with nothing active, false and no change; otherwise true exactly when no ambulance of the active queue is short of the 200 px far-side mark, and then both fields are cleared |
| `GestionnaireAmbulances.GestionnaireAmbulances.SpawnerAmbulance` | feu_tricolore/gestionnaire_ambulances.py:102-120 | exactly one fresh ambulance is appended at the spawn point of the tagged queue; the other queues are unchanged; the counter grows by one |
| `Phases.Colorer` | main_gui.py:229-235 | both heads of each axis get their colour, and the result is safe exactly when one axis is red |
| `Phases.DureeAdaptative` | main_gui.py:300-312 | the adaptive green is 10 s for no vehicle, 15 s for 1 to 3, 25 s for 4 to 7 and 35 s for 8 or more, each band both ways |
| `Phases.DureeCroissante` | main_gui.py:300-312 | a heavier demand never earns a shorter green |
| `Phases.AjouterBorne` | main_gui.py:47-48 | appending to a history of at most 30 entries keeps it at most 30 long with the new entry last; when full, the oldest entry goes |
| `Phases.VertPendant` | main_gui.py:315-320 | the head turns green with the given duration as its current green and countdown; nothing else changes |
| `Phases.AxeVert` | main_gui.py:314-322 | the axis turning green gets the duration on both heads and the crossing axis turns red, so the heads are safe |
| `Phases.AxeVertColore` | main_gui.py:318-322 | the green transition paints the same colours as `Colorer` |
| `Phases.PietonSiDemande` | main_gui.py:242-246 | a head with a call and no crossing starts its crossing; any other head is unchanged; the colour never changes |
| `Phases.FinOrange` | main_gui.py:238-246 | at the end of an orange the axis turns red and serves its pending calls; the other axis is unchanged |
| `Phases.Decompte` | main_gui.py:189-193 | a tick on every head changes no colour, so safety is kept |
| `Phases.Prolonge` | main_gui.py:195-206 | with no ambulance nothing changes; with one, the countdown of both heads of its axis is set to 10 s once the first head has less than 3 s left, and nothing else changes; colours, and so safety, are kept |
| `Phases.ForceVert` | main_gui.py:416-421 | a forced head is green with a 30 s green and countdown |
| `Phases.Priorite` | main_gui.py:414-434 | the ambulance's axis is green with 30 s and the crossing axis red, so the heads are safe |
| `Phases.PrioriteCommeAxeVert` | main_gui.py:414-434 | forcing a green for an ambulance gives the same heads as an ordinary 30 s green for that axis |
| `Phases.PasserNSMonotone` | main_gui.py:288-327 | at the switch to North-South green, a heavier North-South demand never gives the North or South head a shorter green countdown |
| `Phases.PasserEOMonotone` | main_gui.py:329-366 | at the switch to East-West green, a heavier East-West demand never gives the East or West head a shorter green countdown |
| `Phases.PasserNS` | main_gui.py:288-327 | North-South turns green for the adaptive duration of its demand; the phase is NS green; one more cycle; the demand is appended to the bounded North-South history |
| `Phases.PasserEO` | main_gui.py:329-366 | East-West turns green for the adaptive duration of its demand; the phase is EO green; the cycle count is unchanged; the demand is appended to the East-West history |
| `Phases.PhaseNormale` | main_gui.py:210-286 | every transition of the phase logic keeps the heads safe and the histories bounded |
| `Phases.Seconde` | main_gui.py:182-208 | one second keeps safety and bounded histories; under ambulance priority the phase and cycle are frozen; the cycle grows by at most one |
| `Phases.Reprise` | main_gui.py:463-469 | after an accident the axis with the larger demand turns green, North-South on a tie, and the other axis is red |
| `Phases.GelSousPriorite` | main_gui.py:212-214 | while an ambulance has priority the phase logic changes nothing |
| `Phases.AnticipeNS` | main_gui.py:219-226 | the North-South green is cut short only when no North-South vehicle is counted, some East-West vehicle waits and more than 5 s of green have run |
| `Phases.AnticipeEO` | main_gui.py:254-263 | the East-West green is cut short only when no East-West vehicle is counted, some North-South vehicle waits and more than 5 s of green have run |
| `Phases.FinDuVertNS` | main_gui.py:216-235 | a North-South green turns orange, with East-West red, exactly when its countdown is over or it is cut short; otherwise nothing changes |
| `Phases.FinDuVertEO` | main_gui.py:252-271 | an East-West green turns orange, with North-South red, exactly when its countdown is over or it is cut short; otherwise nothing changes |
| `Phases.FinOrangeNS` | main_gui.py:237-250 | an expired North-South orange gives East-West its adaptive green, North-South is red and each requested North-South crossing is running |
| `Phases.OrangeEnCours` | main_gui.py:237-286 | an orange whose countdown is still running is left alone, on either axis |
| `Phases.FinOrangeEO` | main_gui.py:273-286 | an expired East-West orange gives North-South its adaptive green and one more cycle; East-West is red and each requested East-West crossing is running |
| `Simulation.DirDeSens` | main_gui.py:134-149 | "Nord", "Sud", "Est" and "Ouest" select their head, and other names select none |
| `Simulation.PhasePrioritaire` | main_gui.py:414-434 | an ambulance imposes the green phase of its own axis |
| `Simulation.DetecteeEncorePresente` | feu_tricolore/gestionnaire_ambulances.py:66-100 | an ambulance inside its detection band is short of the far-side mark, so it is never released in the frame that detects it |
| `Simulation.TirerPaire` | main_gui.py:292-293 | both generators of the axis take their new level from the draws |
| `Simulation.Simulation.constructor` | main_gui.py:20-60 | North-South green, East-West red, phase NS green, counters zero, stopped, empty queues, no ambulance and no emergency |
| `Simulation.Simulation.Colorier` | main_gui.py:165-168 | the four heads become `Colorer` of the old heads |
| `Simulation.Simulation.AxeAuVert` | main_gui.py:314-322 | the four heads become `AxeVert` of the old heads |
| `Simulation.Simulation.ToggleMeteo` | main_gui.py:91-101 | the shared weather flips and the new state is returned |
| `Simulation.Simulation.Demarrer` | main_gui.py:103-121 | when running already, nothing changes; otherwise the simulation runs with North-South green, East-West red, phase NS green, zero counters and the start-up vehicles added |
| `Simulation.Simulation.Reinitialiser` | main_gui.py:105-116 | running, counters reset, North-South green and East-West red |
| `Simulation.Simulation.Arreter` | main_gui.py:123-126 | the simulation is stopped |
| `Simulation.Simulation.DemanderPieton` | main_gui.py:128-149 | while stopped or for an unknown name nothing changes; otherwise the named head takes the call and its axis's counter grows by one |
| `Simulation.Simulation.SimulerAccident` | main_gui.py:151-169 | while stopped or during an accident nothing changes; otherwise an accident is recorded, emergency mode is on and all four heads turn red; the queues are unchanged |
| `Simulation.Simulation.SpawnerAmbulance` | main_gui.py:171-180 | one ambulance is appended to the tagged queue and counted; the other queues and the active ambulance are unchanged |
| `Simulation.Simulation.PasserNsVert` | main_gui.py:288-327 | the controller's state becomes `PasserNS` of the old; the North and South generators take new levels |
| `Simulation.Simulation.PasserEoVert` | main_gui.py:329-366 | the controller's state becomes `PasserEO` of the old; the East and West generators take new levels |
| `Simulation.Simulation.TraiterVert` | main_gui.py:216-235 | a green phase step is exactly `PhaseNormale` without an ambulance |
| `Simulation.Simulation.TraiterOrange` | main_gui.py:237-286 | an orange phase step is exactly `PhaseNormale` without an ambulance; the generators of the axis turning green take new levels |
| `Simulation.Simulation.FinirOrange` | main_gui.py:238-246 | the heads become `FinOrange` of the old heads |
| `Simulation.Simulation.TraiterPhaseNormale` | main_gui.py:210-286 | the controller's state becomes `PhaseNormale` of the old, with the demand and the ambulance priority; generator levels change only when an axis turns green |
| `Simulation.Simulation.Decompter` | main_gui.py:189-193 | the four heads become `Decompte` of the old heads |
| `Simulation.Simulation.Prolonger` | main_gui.py:195-206 | the four heads become `Prolonge` of the old heads |
| `Simulation.Simulation.UpdateSimulation` | main_gui.py:182-208 | while stopped nothing changes; otherwise the clock gains a second and the controller's state becomes `Seconde` of the old |
| `Simulation.Simulation.Tick` | main_gui.py:391-395 | the elapsed time accumulates; from 1000 ms it resets and, while running, the controller's state becomes `Seconde` of the old on the demand counted on the queues; otherwise the controller is unchanged |
| `Simulation.Simulation.Horodater` | main_gui.py:392-395 | the 1000 ms accumulator part of `Tick`, on given counts |
| `Simulation.Simulation.DonnerPriorite` | main_gui.py:414-434 | the heads become `Priorite` of the old heads and the phase is the ambulance's axis's green |
| `Simulation.Simulation.ActiverAmbulance` | main_gui.py:410-434 | the direction becomes active; a new activation forces `Priorite`, a repeated one changes nothing; the phase is saved on the first activation |
| `Simulation.Simulation.TraiterAmbulances` | main_gui.py:402-443 | the detected direction is `AmbulanceApprochante` of the queues; a new detection forces its green; a detected ambulance holds the priority at the end of the frame; with no detection the priority is released exactly when the ambulance has passed |
| `Simulation.Simulation.TraiterCollision` | main_gui.py:445-456 | outside emergency mode, a detected collision starts the accident between the two vehicles found and turns all four heads red; otherwise nothing changes; the queues are unchanged |
| `Simulation.Simulation.Reprendre` | main_gui.py:466-469 | the controller's state becomes `Reprise` of the old on the given demand |
| `Simulation.Simulation.RepriseApresAccident` | main_gui.py:464-469 | the demand is counted on the queues, then the controller's state becomes `Reprise` of the old |
| `Simulation.Simulation.FinirAccident` | main_gui.py:458-469 | with no accident nothing changes; a running accident counts down; at its end both vehicles leave the queues, emergency mode ends and the busier axis turns green; the accident count is unchanged |
| `Simulation.Simulation.Circuler` | main_gui.py:398-400 | spawning then moving keeps the vehicle manager consistent and leaves the accident state unchanged |
| `Simulation.Simulation.Urgences` | main_gui.py:402-469 | the emergency logic keeps the safety invariant and both managers consistent; an ambulance detected on the queues as they stood holds the priority afterwards; the ambulance count is unchanged |
| `Simulation.Simulation.Frame` | main_gui.py:391-469 | one pass of the main loop keeps the safety invariant; while stopped the heads, the phase and the queues are unchanged |
| `Simulation.Simulation.Horloge` | main_gui.py:391-395 | the clock part of a frame keeps the safety invariant and changes nothing while stopped; the clock advances by `dt` and, past one second, resets and the controller takes one `Seconde` step on the demand counted at the start |
| `Simulation.Simulation.Vehicules` | main_gui.py:398-469 | the running part of a frame keeps the safety invariant and both managers consistent |

## Left out

- Drawing, sound, the message panel, the statistics database, event polling
  and the pygame window and clock are not modelled. The time since the last
  frame is a parameter of `Simulation.Simulation.Frame`.
- Every `random.*` draw is a parameter whose range is a precondition. This
  covers spawning, the start-up positions and their number, and the three
  draws of `simuler_trafic`. Vehicle colours are left out.
- Positions and speeds are exact reals, not IEEE floats, so rounding in
  `vitesse_base * 0.7` is not modelled.
- `Feu.calculer_stats` is left out because it is a floating-point average.
  `Feu.DureeRouge` is modelled as a function, and its value is stated through
  `Feu.AvecCouleur`.
- `Voiture.__init__` keeps only the position, the direction, the kind and the
  base speed. Size, colour, the beacon timer and the siren are left out.
- The centre and the screen size are the constants of the program. The
  managers' `centre_x`, `centre_y`, `largeur` and `hauteur` fields are
  therefore not parameters.
- The weather is one `Meteo.Meteo` object. The controller holds it, and its
  state is passed to the code that reads it. The source uses a global
  singleton instead.
- The controller holds its four heads as values of type `Feu.EtatFeu`. It
  updates them in place through the `Feu` functions. The class `Feu.Feu` is
  proved to implement the same functions with field updates, but the model
  does not capture any aliasing of head objects.
- The ambulance scans read a value snapshot of the queues. This changes
  nothing, because nothing moves during a scan.
- The traffic histories are sequences bounded at 30 entries, as a `deque`
  with `maxlen=30` is.
- `temps_clignotement` and `phase_avant_ambulance` are never read by the
  program. The saved phase is kept and cleared as in the source, but it is
  never restored.
- The counts the controller reads during a second are taken once, at the
  start of `Simulation.Simulation.Tick`. The queues do not move during the
  phase logic, so this gives the same values as the source's repeated calls.
- `traiter_phase_normale` is not blocked by emergency mode, only by ambulance
  priority, and the model keeps that. During an accident the heads are red,
  yet the phase logic still runs on their countdowns.
- In the early end of a green, the countdown is forced to 0 and then
  overwritten by `set_couleur`. The model applies only the final `set_couleur`.
- `passer_eo_vert` and `passer_ns_vert` call `set_couleur("Rouge")` again on
  the axis that just turned red. This resets its countdown after any
  crossing has started, and the model does the same.
- `Simulation.Simulation.FinirAccident`: its contract does not state that
  the restart demand is counted on the queues after the two vehicles are
  removed. `Simulation.Simulation.RepriseApresAccident` states that part.
- `Simulation.Simulation.Frame`: its contract states the invariant it keeps
  and the stopped case only. It does not state the heads, the phase, the
  queues or the managers after a running frame. `Simulation.Simulation.Horloge`
  states the clock part of it; no contract states the whole running frame.
- `Simulation.Simulation.Urgences`: its contract states the invariant it
  keeps and the ambulance part only. It does not state the heads, the
  accident or the queues after the collision check and the accident
  countdown. Those are stated by `Simulation.Simulation.TraiterCollision` and
  `Simulation.Simulation.FinirAccident`, each on the state it starts from,
  and are not composed into one contract.
- `Simulation.Simulation.Vehicules`: its contract states only the invariant
  it keeps. It does not state the queues, the heads or the managers after
  the vehicles move and the emergency logic runs, because the contract of
  `Simulation.Simulation.Circuler` does not state the moved queues.
- `Simulation.Simulation.Circuler`: its contract states consistency and the
  unchanged accident state, not the new queues. Those are stated by
  `GestionnaireVoitures.GestionnaireVoitures.SpawnVoitures` and
  `GestionnaireVoitures.GestionnaireVoitures.UpdateVoitures`.
- `Simulation.TirerPaire`: its contract states only the new levels. The
  counters are stated by `Trafic.Trafic.SimulerTrafic`.
- `Phases.PhaseNormale`: its own contract states only the invariant it
  keeps. Each transition is stated by a lemma beside it, on both axes:
  `Phases.FinDuVertNS` and `Phases.FinDuVertEO` (the end of a green, early
  end included), `Phases.FinOrangeNS` and `Phases.FinOrangeEO` (the end of an
  orange), `Phases.OrangeEnCours` (a running orange) and
  `Phases.GelSousPriorite` (ambulance priority).
