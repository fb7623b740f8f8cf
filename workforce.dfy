/** The workforce page as a state machine: the loaded workers and
    timesheets, the two forms and their dialogs, and the two handlers that
    change them, `handleCreateWorker` and `handleLogTime`.

    The store is an oracle: each handler receives the reply its insert
    would get. `parse` stands for `parseFloat` (NaN is not modelled).
    Alerts are returned as messages. */
module Workforce {
  import opened Common

  const DefaultRole: string := "Általános"

  datatype Worker = Worker(id: string, name: string, role: string, hourlyRate: real, status: string)

  datatype Timesheet = Timesheet(id: string, workerId: string, projectId: string, date: string,
                                 hours: real, description: string, calculatedCost: real)

  datatype WorkerForm = WorkerForm(name: string, role: string, hourlyRate: string)

  datatype TimeForm = TimeForm(workerId: string, projectId: string, date: string, hours: string, description: string)

  /** The rows the handlers send to the store. */
  datatype NewWorker = NewWorker(name: string, role: string, hourlyRate: real)

  datatype NewTimesheet = NewTimesheet(workerId: string, projectId: string, date: string, hours: real,
                                       description: string, calculatedCost: real)

  /** The store's reply to an insert: an error, the stored row, or no data
      and no error. */
  datatype InsertReply<T> = InsertError(message: string) | Inserted(row: T) | NothingReturned

  /** `workers.find(w => w.id === id)`: the first worker with that id. */
  function FindWorker(workers: seq<Worker>, id: string): (w: Option<Worker>)
    ensures w.None? <==> forall i :: 0 <= i < |workers| ==> workers[i].id != id
    ensures w.Some? ==> exists i :: 0 <= i < |workers| && workers[i] == w.value && w.value.id == id
                                    && forall j :: 0 <= j < i ==> workers[j].id != id
    decreases |workers|
  {
    if workers == [] then None
    else if workers[0].id == id then Some(workers[0])
    else
      var w := FindWorker(workers[1..], id);
      assert forall i :: 0 <= i < |workers| - 1 ==> workers[1..][i] == workers[i + 1];
      w
  }

  class WorkforcePage {
    var workers: seq<Worker>
    var timesheets: seq<Timesheet>
    var workerForm: WorkerForm
    var timeForm: TimeForm
    var workerDialogOpen: bool
    var timeDialogOpen: bool

    /** The page after loading: empty forms, the time form dated `today`. */
    constructor(loadedWorkers: seq<Worker>, loadedTimesheets: seq<Timesheet>, today: string)
      ensures workers == loadedWorkers && timesheets == loadedTimesheets
      ensures workerForm == WorkerForm("", DefaultRole, "")
      ensures timeForm == TimeForm("", "", today, "", "")
      ensures !workerDialogOpen && !timeDialogOpen
    {
      workers := loadedWorkers;
      timesheets := loadedTimesheets;
      workerForm := WorkerForm("", DefaultRole, "");
      timeForm := TimeForm("", "", today, "", "");
      workerDialogOpen := false;
      timeDialogOpen := false;
    }

    /** `handleCreateWorker`: what was sent to the store (None when the
        form was refused) and the alert shown, if any. */
    method CreateWorker(parse: string -> real, reply: InsertReply<Worker>)
      returns (written: Option<NewWorker>, alert: Option<string>)
      modifies this
      // a name and an hourly rate are required before anything is written
      ensures written.None? <==> old(workerForm.name) == "" || old(workerForm.hourlyRate) == ""
      ensures written.Some? ==>
                written.value == NewWorker(old(workerForm.name), old(workerForm.role), parse(old(workerForm.hourlyRate)))
      // a stored worker is appended and the form starts over
      ensures written.Some? && reply.Inserted? ==>
                workers == old(workers) + [reply.row]
                && workerForm == WorkerForm("", DefaultRole, "") && !workerDialogOpen
      // otherwise the list, the form and the dialog stay as they were
      ensures !(written.Some? && reply.Inserted?) ==>
                workers == old(workers) && workerForm == old(workerForm) && workerDialogOpen == old(workerDialogOpen)
      ensures alert.Some? <==> written.None? || reply.InsertError?
      // the timesheet side is untouched
      ensures timesheets == old(timesheets) && timeForm == old(timeForm) && timeDialogOpen == old(timeDialogOpen)
    {
      if workerForm.name == "" || workerForm.hourlyRate == "" {
        return None, Some("Név és órabér kötelező!");
      }
      written := Some(NewWorker(workerForm.name, workerForm.role, parse(workerForm.hourlyRate)));
      alert := None;
      match reply {
        case InsertError(msg) =>
          alert := Some("Hiba: " + msg);
        case Inserted(row) =>
          workers := workers + [row];
          workerDialogOpen := false;
          workerForm := WorkerForm("", DefaultRole, "");
        case NothingReturned =>
      }
    }

    /** `handleLogTime`: what was sent to the store (None when nothing was)
        and the alert shown, if any. */
    method LogTime(parse: string -> real, reply: InsertReply<Timesheet>)
      returns (written: Option<NewTimesheet>, alert: Option<string>)
      modifies this
      // a worker, a project and hours are required, and the worker must be loaded
      ensures written.Some? <==>
                old(timeForm.workerId) != "" && old(timeForm.projectId) != "" && old(timeForm.hours) != ""
                && FindWorker(old(workers), old(timeForm.workerId)).Some?
      // the row carries the form's choices and costs hours times the worker's rate
      ensures written.Some? ==>
                var f := old(timeForm);
                var hours := parse(f.hours);
                written.value == NewTimesheet(f.workerId, f.projectId, f.date, hours, f.description,
                                              hours * FindWorker(old(workers), f.workerId).value.hourlyRate)
      // a stored row goes first; the form keeps worker, project and date
      ensures written.Some? && reply.Inserted? ==>
                timesheets == [reply.row] + old(timesheets)
                && timeForm == old(timeForm).(hours := "", description := "") && !timeDialogOpen
      // otherwise the list, the form and the dialog stay as they were
      ensures !(written.Some? && reply.Inserted?) ==>
                timesheets == old(timesheets) && timeForm == old(timeForm) && timeDialogOpen == old(timeDialogOpen)
      ensures alert.Some? <==>
                old(timeForm.workerId) == "" || old(timeForm.projectId) == "" || old(timeForm.hours) == ""
                || (written.Some? && reply.InsertError?)
      // the worker side is untouched
      ensures workers == old(workers) && workerForm == old(workerForm) && workerDialogOpen == old(workerDialogOpen)
    {
      if timeForm.workerId == "" || timeForm.projectId == "" || timeForm.hours == "" {
        return None, Some("Minden mező kitöltése kötelező!");
      }
      var worker := FindWorker(workers, timeForm.workerId);
      if worker.None? {
        return None, None;
      }
      var hours := parse(timeForm.hours);
      var cost := hours * worker.value.hourlyRate;
      written := Some(NewTimesheet(timeForm.workerId, timeForm.projectId, timeForm.date, hours,
                                   timeForm.description, cost));
      alert := None;
      match reply {
        case InsertError(msg) =>
          alert := Some("Hiba: " + msg);
        case Inserted(row) =>
          timesheets := [row] + timesheets;
          timeDialogOpen := false;
          timeForm := timeForm.(hours := "", description := "");
        case NothingReturned =>
      }
    }
  }
}
