/** The groups route of the API: a process-wide list of study groups that GET
    filters by category, POST appends to and DELETE splices (first group with the
    id). Ids and timestamps come from the clock in the original; here they are
    parameters. */
module GroupsApi {
  import opened Common

  datatype Group = Group(
    id: string,
    name: string,
    description: string,
    category: string,
    isPrivate: bool,
    memberCount: int,
    createdAt: string,
    ownerId: string)

  /** The JSON body of a POST; a field is `None` when the client left it out. */
  datatype NewGroup = NewGroup(
    name: Option<string>,
    description: Option<string>,
    category: Option<string>,
    isPrivate: Option<bool>,
    userId: Option<string>)

  /** What a handler answers, with its HTTP status. */
  datatype Response =
    | Listed(groups: seq<Group>, total: nat)
    | Created(group: Group)
    | Deleted
    | Failed(code: nat, error: string)
  {
    function Status(): nat
    {
      match this
      case Listed(_, _) => 200
      case Created(_) => 201
      case Deleted => 200
      case Failed(code, _) => code
    }
  }

  /** The category parameter restricts the list unless it is absent, empty or 'all'. */
  predicate Selects(category: Option<string>, g: Group)
  {
    !Truthy(category) || category.value == "all" || g.category == category.value
  }

  function CategoryFilter(category: Option<string>): Group -> bool
  {
    (g: Group) => Selects(category, g)
  }

  /** The list GET answers with: the groups of the category, in store order. */
  function Query(groups: seq<Group>, category: Option<string>): (r: seq<Group>)
    ensures Subsequence(r, groups)
    ensures forall k :: 0 <= k < |r| ==> r[k] in groups && Selects(category, r[k])
    ensures forall k :: 0 <= k < |groups| ==> Selects(category, groups[k]) ==> groups[k] in r
    ensures !Truthy(category) || category.value == "all" ==> r == groups
    ensures KeepsCounts(r, groups, CategoryFilter(category))
  {
    FilterIsSubsequence(groups, CategoryFilter(category));
    FilterCounts(groups, CategoryFilter(category));
    var r := Filter(groups, CategoryFilter(category));
    if !Truthy(category) || category.value == "all" then
      FilterPassAll(groups, CategoryFilter(category)); r
    else
      r
  }

  /** The first index holding a group with this id, or -1. */
  function IndexOf(groups: seq<Group>, id: string): (i: int)
    ensures -1 <= i < |groups|
    ensures i == -1 <==> forall k :: 0 <= k < |groups| ==> groups[k].id != id
    ensures 0 <= i ==> groups[i].id == id && forall k :: 0 <= k < i ==> groups[k].id != id
  {
    FirstIndex(groups, (g: Group) => g.id == id)
  }

  /** The two groups the route starts with. */
  const SeedGroups: seq<Group> := [
    Group("1", "CS101 Study Group", "Collaborative learning for Computer Science fundamentals",
          "study", false, 24, "2024-12-01T10:00:00Z", "1"),
    Group("2", "AI Research Lab", "Exploring machine learning and deep learning concepts",
          "research", true, 12, "2024-12-05T10:00:00Z", "2")
  ]

  /** The module-level `groups` array and its three handlers. */
  class GroupStore {
    var groups: seq<Group>

    constructor ()
      ensures groups == SeedGroups
    {
      groups := SeedGroups;
    }

    /** GET: filters a copy of the list; the store is not touched. */
    method Get(category: Option<string>) returns (r: Response)
      ensures r.Listed? && r.groups == Query(groups, category) && r.total == |r.groups|
      ensures r.Status() == 200
    {
      var filtered := groups;
      if Truthy(category) && category.value != "all" {
        filtered := Filter(filtered, CategoryFilter(category));
      }
      r := Listed(filtered, |filtered|);
    }

    /** POST: a body without a name is refused with 400; otherwise one group with a
        single member is appended, with defaults for the missing fields. Every group
        in the store afterwards was there before or is the new one, so no group's
        `memberCount` changes. */
    method Post(body: NewGroup, id: string, now: string) returns (r: Response)
      modifies this
      ensures !Truthy(body.name) ==> r == Failed(400, "Group name is required") && groups == old(groups)
      ensures Truthy(body.name) ==> r.Created? && r.Status() == 201 && groups == old(groups) + [r.group]
      ensures Truthy(body.name) ==>
        && r.group.id == id
        && r.group.name == body.name.value
        && r.group.description == OrDefault(body.description, "")
        && r.group.category == OrDefault(body.category, "general")
        && r.group.isPrivate == (body.isPrivate == Some(true))
        && r.group.memberCount == 1
        && r.group.createdAt == now
        && r.group.ownerId == OrDefault(body.userId, "1")
      ensures forall k :: 0 <= k < |groups| ==> groups[k] in old(groups) || (r.Created? && groups[k] == r.group)
    {
      if !Truthy(body.name) {
        return Failed(400, "Group name is required");
      }
      var group := Group(
        id,
        body.name.value,
        OrDefault(body.description, ""),
        OrDefault(body.category, "general"),
        body.isPrivate == Some(true),
        1,
        now,
        OrDefault(body.userId, "1"));
      groups := groups + [group];
      r := Created(group);
    }

    /** DELETE: 400 without an id, 404 for an unknown id; otherwise exactly the
        first group with the id is spliced out. */
    method Delete(id: Option<string>) returns (r: Response)
      modifies this
      ensures !Truthy(id) ==> r == Failed(400, "Group ID is required") && groups == old(groups)
      ensures Truthy(id) && IndexOf(old(groups), id.value) == -1 ==>
        r == Failed(404, "Group not found") && groups == old(groups)
      ensures Truthy(id) && IndexOf(old(groups), id.value) >= 0 ==>
        && groups == RemoveAt(old(groups), IndexOf(old(groups), id.value))
        && |groups| == |old(groups)| - 1
        && Subsequence(groups, old(groups))
        && r == Deleted && r.Status() == 200
      ensures forall k :: 0 <= k < |groups| ==> groups[k] in old(groups)
    {
      if !Truthy(id) {
        return Failed(400, "Group ID is required");
      }
      var i := IndexOf(groups, id.value);
      if i == -1 {
        return Failed(404, "Group not found");
      }
      RemoveAtIsSubsequence(groups, i);
      groups := RemoveAt(groups, i);
      r := Deleted;
    }
  }
}
