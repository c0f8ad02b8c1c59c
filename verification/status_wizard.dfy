/**
 * The project status wizard (`wizard/project_status_wizard.py`): the form
 * that asks for a reason before a project is paused, resumed or cancelled.
 * The wizard checks only that a reason was given; the project's own
 * `_do_pause`, `_do_resume` and `_do_cancel` make the change, and the status
 * guards live in the buttons that open the wizard, not in the wizard.
 */
module StatusWizard {
  import opened Common
  import Projects

  /** `action_type`. */
  datatype ActionType = Pause | Resume | Cancel

  /** The status an action leads to, whatever the status before. */
  function Target(action: ActionType): (s: Projects.Status)
    ensures s != Projects.Draft && s != Projects.Completed
  {
    match action
    case Pause => Projects.Paused
    case Resume => Projects.InProgress
    case Cancel => Projects.Cancelled
  }

  /**
   * The history record an action writes: pause and resume log a fixed
   * previous status, cancel logs the status the project had.
   */
  function Logged(action: ActionType, before: Projects.Status, reason: string): (c: Projects.StatusChange)
    ensures c.to == Target(action) && c.note == Projects.Reason(reason)
    ensures action == Cancel ==> c.from == before
  {
    match action
    case Pause => Projects.StatusChange(Projects.InProgress, Projects.Paused, Projects.Reason(reason))
    case Resume => Projects.StatusChange(Projects.Paused, Projects.InProgress, Projects.Reason(reason))
    case Cancel => Projects.StatusChange(before, Projects.Cancelled, Projects.Reason(reason))
  }

  /**
   * `action_confirm`: an empty reason is refused before anything changes;
   * otherwise the action runs on the project as it stands, its status is the
   * action's target and one history record is added.
   */
  method Confirm(p: Projects.Project, action: ActionType, reason: string, today: Date) returns (r: Outcome)
    requires p.Valid()
    modifies p
    ensures p.Valid()
    ensures r.Fail? <==> reason == []
    ensures r.Fail? ==> r.error == EmptyReason && unchanged(p)
    ensures r.Pass? ==>
              p.status == Target(action) &&
              p.history == old(p.history) + [Logged(action, old(p.status), reason)] &&
              p.actualStart == old(p.actualStart) && p.actualFinish == old(p.actualFinish) &&
              p.avcoUpdated == old(p.avcoUpdated)
    ensures r.Pass? && action == Pause ==> p.pausedDate == Some(today) && p.totalPausedDays == old(p.totalPausedDays)
    ensures r.Pass? && action == Resume ==>
              p.pausedDate == None &&
              p.totalPausedDays == old(p.totalPausedDays) + (if old(p.pausedDate).Some? then today - old(p.pausedDate).value else 0)
    ensures r.Pass? && action == Cancel ==> p.pausedDate == old(p.pausedDate) && p.totalPausedDays == old(p.totalPausedDays)
  {
    if reason == [] {
      return Fail(EmptyReason);
    }
    match action {
      case Pause => p.DoPause(reason, today);
      case Resume => p.DoResume(reason, today);
      case Cancel => p.DoCancel(reason);
    }
    r := Pass;
  }
}
