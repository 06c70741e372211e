/** Status display and action buttons of the control panel (front/components/ControlPanel.tsx). */
module ControlPanel {
  import Theme

  /** The five statuses the panel is rendered for. */
  datatype Status = Idle | Mapping | Cutting | Paused | Completed

  datatype Action = Start | Pause | Stop | Reset

  function StatusText(s: Status): string
  {
    match s
    case Mapping => "Mapeando área…"
    case Cutting => "Cortando césped…"
    case Paused => "Pausado"
    case Completed => "Sesión completada"
    case Idle => "Listo para iniciar"
  }

  function StatusColor(s: Status): string
  {
    match s
    case Mapping => Theme.Info
    case Cutting => Theme.Success
    case Paused => Theme.Warning
    case Completed => Theme.Primary
    case Idle => Theme.Gray500
  }

  predicate CanStart(s: Status) { s == Idle || s == Paused || s == Completed }

  predicate CanPause(s: Status) { s == Mapping || s == Cutting }

  predicate CanStop(s: Status) { s == Mapping || s == Cutting || s == Paused }

  /** The reset button needs a handler and a completed session. */
  predicate ShowsReset(hasResetHandler: bool, s: Status) { hasResetHandler && s == Completed }

  /** The buttons rendered, in the panel's left-to-right order. */
  function Buttons(s: Status, hasResetHandler: bool): (b: seq<Action>)
    ensures |b| >= 1
    ensures Start in b <==> s in {Idle, Paused, Completed}
    ensures Pause in b <==> s in {Mapping, Cutting}
    ensures Stop in b <==> s in {Mapping, Cutting, Paused}
    ensures Reset in b <==> hasResetHandler && s == Completed
    ensures !(Start in b && Pause in b)
    ensures forall i, j :: 0 <= i < j < |b| ==> b[i] != b[j]
  {
    (if CanStart(s) then [Start] else [])
    + (if CanPause(s) then [Pause] else [])
    + (if CanStop(s) then [Stop] else [])
    + (if ShowsReset(hasResetHandler, s) then [Reset] else [])
  }

  /** Start and pause are never offered together, and every status offers
      at least one of start, pause and stop. */
  lemma ActionsExclusiveAndCovering(s: Status)
    ensures !(CanStart(s) && CanPause(s))
    ensures CanStart(s) || CanPause(s) || CanStop(s)
  {
  }

  /** Distinct statuses get distinct labels and distinct colours. */
  lemma StatusDisplayInjective(s: Status, t: Status)
    requires s != t
    ensures StatusText(s) != StatusText(t)
    ensures StatusColor(s) != StatusColor(t)
  {
  }
}
