/**
 * The school's activity manager: the list of activities, the create form
 * and its modal, and the three list updates (create, delete, status change),
 * with the draft -> active -> completed lifecycle the status buttons offer.
 */
module Activities {
  import opened Wrappers
  import Types
  import opened Seqs

  datatype ActivityStatus = Draft | Active | Completed

  /** An activity; `maxStudents` may be missing, as on one of the sample activities. */
  datatype Activity = Activity(
    id: string,
    title: string,
    description: string,
    category: string,
    difficulty: Types.Difficulty,
    points: int,
    startDate: string,
    endDate: string,
    enrolledStudents: int,
    maxStudents: Option<int>,
    status: ActivityStatus)

  /** The fields of the create form. */
  datatype ActivityForm = ActivityForm(
    title: string,
    description: string,
    category: string,
    difficulty: Types.Difficulty,
    points: int,
    startDate: string,
    endDate: string,
    maxStudents: int,
    status: ActivityStatus)

  /** The form as it starts and as it is reset after every create. */
  const DefaultForm: ActivityForm := ActivityForm("", "", "Water", Types.Easy, 100, "", "", 200, Draft)

  /** The activities the page starts with. */
  const InitialActivities: seq<Activity> := [
    Activity("1", "Water Conservation Week",
             "Students track daily water usage and implement conservation techniques",
             "Water", Types.Medium, 150, "2024-02-01", "2024-02-07", 245, Some(300), Active),
    Activity("2", "Plastic-Free Challenge", "One-week challenge to eliminate single-use plastics",
             "Waste", Types.Easy, 100, "2024-02-10", "2024-02-16", 189, Some(250), Draft),
    Activity("3", "Energy Audit Project", "Comprehensive home energy audit with improvement recommendations",
             "Energy", Types.Hard, 250, "2024-01-15", "2024-01-30", 156, None, Completed)
  ]

  /** No two activities share an id. */
  predicate UniqueIds(acts: seq<Activity>) {
    forall i, j :: 0 <= i < j < |acts| ==> acts[i].id != acts[j].id
  }

  /** Some activity has that id. */
  predicate HasId(acts: seq<Activity>, id: string) {
    exists i :: 0 <= i < |acts| && acts[i].id == id
  }

  /** The activity a submitted form becomes: its fields, the given id, nobody enrolled yet. */
  function FromForm(form: ActivityForm, id: string): (a: Activity)
    ensures a.id == id && a.enrolledStudents == 0
    ensures a.title == form.title && a.description == form.description
    ensures a.category == form.category && a.difficulty == form.difficulty
    ensures a.points == form.points && a.startDate == form.startDate && a.endDate == form.endDate
    ensures a.maxStudents == Some(form.maxStudents) && a.status == form.status
  {
    Activity(id, form.title, form.description, form.category, form.difficulty, form.points,
             form.startDate, form.endDate, 0, Some(form.maxStudents), form.status)
  }

  /** The list after a create: the new activity first, the old ones after it unchanged. */
  function Created(acts: seq<Activity>, form: ActivityForm, id: string): (r: seq<Activity>)
    ensures |r| == |acts| + 1 && r[0] == FromForm(form, id) && r[1..] == acts
  {
    [FromForm(form, id)] + acts
  }

  /** The list after a delete: the activities whose id differs, in their order. */
  function WithoutId(acts: seq<Activity>, id: string): (r: seq<Activity>)
    ensures forall a :: a in r <==> a in acts && a.id != id
    ensures IsSubsequence(r, acts)
    ensures forall a :: multiset(r)[a] == if a.id != id then multiset(acts)[a] else 0
    decreases |acts|
  {
    if acts == [] then []
    else
      var rest := WithoutId(acts[1..], id);
      assert acts == [acts[0]] + acts[1..];
      assert forall a :: a in acts <==> a == acts[0] || a in acts[1..];
      if acts[0].id != id then [acts[0]] + rest
      else
        assert IsSubsequence(rest, [acts[0]] + acts[1..]);
        rest
  }

  /** The list after a status change: same length and order; only the status of the activities with that id changes. */
  function WithStatus(acts: seq<Activity>, id: string, s: ActivityStatus): (r: seq<Activity>)
    ensures |r| == |acts|
    ensures forall i :: 0 <= i < |acts| && acts[i].id != id ==> r[i] == acts[i]
    ensures forall i :: 0 <= i < |acts| && acts[i].id == id ==> r[i] == acts[i].(status := s)
    decreases |acts|
  {
    if acts == [] then []
    else
      var head := if acts[0].id == id then acts[0].(status := s) else acts[0];
      [head] + WithStatus(acts[1..], id, s)
  }

  /** Deleting an id that no activity has changes nothing. */
  lemma {:induction false} DeleteAbsent(acts: seq<Activity>, id: string)
    requires !HasId(acts, id)
    ensures WithoutId(acts, id) == acts
    decreases |acts|
  {
    if acts != [] {
      assert acts[0].id != id;
      assert !HasId(acts[1..], id) by {
        forall i | 0 <= i < |acts[1..]| ensures acts[1..][i].id != id {
          assert acts[1..][i] == acts[i + 1];
        }
      }
      DeleteAbsent(acts[1..], id);
      assert acts == [acts[0]] + acts[1..];
    }
  }

  /** Deleting twice is deleting once. */
  lemma DeleteIdempotent(acts: seq<Activity>, id: string)
    ensures WithoutId(WithoutId(acts, id), id) == WithoutId(acts, id)
  {
    DeleteAbsent(WithoutId(acts, id), id);
  }

  /** Deleting the id of an activity removes at least that one. */
  lemma {:induction false} DeletePresentShrinks(acts: seq<Activity>, id: string)
    requires HasId(acts, id)
    ensures |WithoutId(acts, id)| < |acts|
    decreases |acts|
  {
    SubsequenceElements(WithoutId(acts, id), acts);
    if acts[0].id != id {
      var i :| 0 <= i < |acts| && acts[i].id == id;
      assert acts[1..][i - 1].id == id;
      DeletePresentShrinks(acts[1..], id);
    } else {
      SubsequenceElements(WithoutId(acts[1..], id), acts[1..]);
    }
  }

  /** A create with a fresh id keeps the ids unique. */
  lemma CreatePreservesUniqueIds(acts: seq<Activity>, form: ActivityForm, id: string)
    requires UniqueIds(acts) && !HasId(acts, id)
    ensures UniqueIds(Created(acts, form, id))
  {
    var r := Created(acts, form, id);
    forall i, j | 0 <= i < j < |r| ensures r[i].id != r[j].id {
      if i == 0 {
        assert r[j] == acts[j - 1];
      } else {
        assert r[i] == acts[i - 1] && r[j] == acts[j - 1];
      }
    }
  }

  /** A delete keeps the ids unique. */
  lemma {:induction false} DeletePreservesUniqueIds(acts: seq<Activity>, id: string)
    requires UniqueIds(acts)
    ensures UniqueIds(WithoutId(acts, id))
    decreases |acts|
  {
    if acts != [] {
      var tail := acts[1..];
      assert UniqueIds(tail) by {
        forall i, j | 0 <= i < j < |tail| ensures tail[i].id != tail[j].id {
          assert tail[i] == acts[i + 1] && tail[j] == acts[j + 1];
        }
      }
      DeletePreservesUniqueIds(tail, id);
      var rest := WithoutId(tail, id);
      if acts[0].id != id {
        forall a | a in rest ensures a.id != acts[0].id {
          var k :| 0 <= k < |tail| && tail[k] == a;
          assert acts[k + 1] == a;
        }
        PrependFreshKeepsUnique(acts[0], rest);
      }
    }
  }

  /** Putting an activity whose id no other has in front keeps the ids unique. */
  lemma PrependFreshKeepsUnique(x: Activity, rest: seq<Activity>)
    requires UniqueIds(rest) && forall a :: a in rest ==> a.id != x.id
    ensures UniqueIds([x] + rest)
  {
    var r := [x] + rest;
    forall i, j | 0 <= i < j < |r| ensures r[i].id != r[j].id {
      assert r[j] == rest[j - 1];
      if i > 0 {
        assert r[i] == rest[i - 1];
      }
    }
  }

  /** A status change keeps the ids, and so keeps them unique. */
  lemma StatusChangeKeepsIds(acts: seq<Activity>, id: string, s: ActivityStatus)
    ensures var r := WithStatus(acts, id, s);
      forall i :: 0 <= i < |acts| ==> r[i].id == acts[i].id
    ensures UniqueIds(acts) ==> UniqueIds(WithStatus(acts, id, s))
  {
  }

  /** The button an activity shows for its status, as the status it sets: Launch for a draft, Complete for an active one, none when completed. */
  function NextStatus(s: ActivityStatus): Option<ActivityStatus> {
    match s
    case Draft => Some(Active)
    case Active => Some(Completed)
    case Completed => None
  }

  /** The position of a status in the lifecycle. */
  function Rank(s: ActivityStatus): nat {
    match s
    case Draft => 0
    case Active => 1
    case Completed => 2
  }

  /** Each offered transition moves one step forward; completed has none. */
  lemma LifecycleMovesForward(s: ActivityStatus)
    ensures NextStatus(s).Some? ==> Rank(NextStatus(s).value) == Rank(s) + 1
    ensures NextStatus(s).None? <==> s == Completed
  {
  }

  /**
   * Pressing an activity's status button, with unique ids, moves that
   * activity one step forward and leaves every other activity as it was, so
   * no status ever moves backwards.
   */
  lemma StatusButtonNeverMovesBack(acts: seq<Activity>, k: nat)
    requires UniqueIds(acts) && k < |acts| && NextStatus(acts[k].status).Some?
    ensures var r := WithStatus(acts, acts[k].id, NextStatus(acts[k].status).value);
      && Rank(r[k].status) == Rank(acts[k].status) + 1
      && (forall i :: 0 <= i < |acts| && i != k ==> r[i] == acts[i])
      && (forall i :: 0 <= i < |acts| ==> Rank(r[i].status) >= Rank(acts[i].status))
  {
    var next := NextStatus(acts[k].status).value;
    var r := WithStatus(acts, acts[k].id, next);
    assert r[k] == acts[k].(status := next);
    LifecycleMovesForward(acts[k].status);
    forall i | 0 <= i < |acts| && i != k ensures r[i] == acts[i] {
      if i < k {
        assert acts[i].id != acts[k].id;
      } else {
        assert acts[k].id != acts[i].id;
      }
    }
    forall i | 0 <= i < |acts| ensures Rank(r[i].status) >= Rank(acts[i].status) {
      if i != k {
        assert r[i] == acts[i];
      }
    }
  }

  /** The three state cells of the page. */
  class ManageActivitiesPage {
    var activities: seq<Activity>
    var newActivity: ActivityForm
    var showCreateForm: bool

    /** Activity ids are unique. */
    predicate Valid()
      reads this
    {
      UniqueIds(activities)
    }

    constructor ()
      ensures Valid()
      ensures activities == InitialActivities && newActivity == DefaultForm && !showCreateForm
    {
      activities := InitialActivities;
      newActivity := DefaultForm;
      showCreateForm := false;
    }

    /** The "Create Activity" buttons open the modal. */
    method OpenCreateForm()
      modifies this
      ensures showCreateForm
      ensures activities == old(activities) && newActivity == old(newActivity)
    {
      showCreateForm := true;
    }

    /** The close and Cancel buttons close the modal; the form keeps what was typed. */
    method CloseCreateForm()
      modifies this
      ensures !showCreateForm
      ensures activities == old(activities) && newActivity == old(newActivity)
    {
      showCreateForm := false;
    }

    /**
     * `handleCreateActivity`, with the clock-derived id passed in; the page
     * does not check it, so the ids stay unique only when it is fresh.
     */
    method CreateActivity(id: string)
      modifies this
      ensures activities == Created(old(activities), old(newActivity), id)
      ensures newActivity == DefaultForm && !showCreateForm
      ensures old(Valid()) && !HasId(old(activities), id) ==> Valid()
      ensures !EmptyStateShown()
    {
      if Valid() && !HasId(activities, id) {
        CreatePreservesUniqueIds(activities, newActivity, id);
      }
      var activity := FromForm(newActivity, id);
      activities := [activity] + activities;
      newActivity := DefaultForm;
      showCreateForm := false;
    }

    /** `handleDeleteActivity`. */
    method DeleteActivity(id: string)
      modifies this
      ensures old(Valid()) ==> Valid()
      ensures activities == WithoutId(old(activities), id)
      ensures newActivity == old(newActivity) && showCreateForm == old(showCreateForm)
      ensures EmptyStateShown() <==> forall a :: a in old(activities) ==> a.id == id
    {
      if Valid() {
        DeletePreservesUniqueIds(activities, id);
      }
      activities := WithoutId(activities, id);
      if activities != [] {
        assert activities[0] in activities;
      }
    }

    /** `handleStatusChange`. */
    method ChangeStatus(id: string, s: ActivityStatus)
      modifies this
      ensures old(Valid()) ==> Valid()
      ensures activities == WithStatus(old(activities), id, s)
      ensures newActivity == old(newActivity) && showCreateForm == old(showCreateForm)
    {
      StatusChangeKeepsIds(activities, id, s);
      activities := WithStatus(activities, id, s);
    }

    /** The "No activities yet" panel is shown exactly when the list is empty. */
    predicate EmptyStateShown()
      reads this
    {
      |activities| == 0
    }
  }
}
