/** The activity log: business events, newest first, with a request status. */
module Activities {
  import opened Wrappers
  import opened Seqs
  import opened Types

  datatype ActivityType = Ingreso | Egreso | CambioProducto | CambioPrecio | Otro

  datatype Activity = Activity(
    id: Id,
    kind: ActivityType,
    description: string,
    amount: Option<real>,
    date: Time,
    userId: Option<Id>,
    metadata: Option<map<string, string>>)

  /** What a caller supplies to `addActivity`: an activity without its id and date. */
  datatype ActivityDraft = ActivityDraft(
    kind: ActivityType,
    description: string,
    amount: Option<real>,
    userId: Option<Id>,
    metadata: Option<map<string, string>>)

  function StampActivity(d: ActivityDraft, id: Id, now: Time): (a: Activity)
    ensures a.id == id && a.date == now && a.kind == d.kind && a.description == d.description
    ensures a.amount == d.amount && a.userId == d.userId && a.metadata == d.metadata
  {
    Activity(id, d.kind, d.description, d.amount, now, d.userId, d.metadata)
  }

  /** How many activities `getRecentActivities` returns when called without a limit. */
  const DefaultRecentLimit := 10

  class ActivityStore {
    var activities: seq<Activity>
    var status: LoadStatus
    var error: Option<string>

    constructor ()
      ensures activities == [] && status == Idle && error == None
    {
      activities := [];
      status := Idle;
      error := None;
    }

    /** Prepends the activity with a fresh id and the current date; the store reports success. */
    method AddActivity(d: ActivityDraft, id: Id, now: Time)
      modifies this
      ensures activities == [StampActivity(d, id, now)] + old(activities)
      ensures status == Success && error == None
    {
      activities := [StampActivity(d, id, now)] + activities;
      status := Success;
      error := None;
    }

    /** The activities of one type, in stored order. */
    function GetActivitiesByType(t: ActivityType): (r: seq<Activity>)
      reads this
      ensures forall a :: a in r <==> a in activities && a.kind == t
      ensures (forall a :: a in activities ==> a.kind == t) ==> r == activities
    {
      Filter(activities, (a: Activity) => a.kind == t)
    }

    /** The first `limit` activities (ten by default), relying on newest-first insertion. */
    function GetRecentActivities(limit: Option<int>): (r: seq<Activity>)
      reads this
      ensures |r| <= |activities| && r == activities[..|r|]
      ensures 0 <= limit.GetOr(DefaultRecentLimit) ==>
        |r| == if limit.GetOr(DefaultRecentLimit) < |activities| then limit.GetOr(DefaultRecentLimit) else |activities|
      ensures limit.None? ==> |r| == if |activities| < 10 then |activities| else 10
    {
      HeadSlice(activities, limit.GetOr(DefaultRecentLimit))
    }

    method ClearActivities()
      modifies this
      ensures activities == [] && status == Idle && error == None
    {
      activities := [];
      status := Idle;
      error := None;
    }

    /** Loading clears the error; leaving the loading state keeps it. */
    method SetLoading(loading: bool)
      modifies this
      ensures activities == old(activities)
      ensures loading ==> status == Loading && error == None
      ensures !loading ==> status == Idle && error == old(error)
    {
      status := if loading then Loading else Idle;
      error := if loading then None else error;
    }

    /** A non-empty message is an error; null or the empty string reads as success. */
    method SetError(e: Option<string>)
      modifies this
      ensures activities == old(activities)
      ensures error == e
      ensures status == if Truthy(e) then Error else Success
    {
      status := if Truthy(e) then Error else Success;
      error := e;
    }
  }
}
