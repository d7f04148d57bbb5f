/** The user management page: the paged list of users, the details modal,
    and the delete that removes a user from the list once the server has
    accepted the request. */
module UserManagement {
  import opened Wrappers
  import opened Js
  import opened Lists
  import Pagination

  const UsersPerPage: int := 5
  const DeletePathPrefix: string := "/editp/delete/"

  /** The list filter's callback keeps the row: its `_id` differs (`!==`)
      from the one of the user in the modal. */
  predicate KeepsRow(row: JsValue, details: JsValue) {
    !Nullish(row) && !Nullish(details) && Read(row, "_id") != Read(details, "_id")
  }

  /** `drivers.filter((driver) => driver._id !== driverDetails._id)`: None
      when the callback throws, on a null row or a null `driverDetails`. */
  function RemoveById(rows: seq<JsValue>, details: JsValue): (r: Option<seq<JsValue>>)
    ensures r.Some? ==> |r.value| <= |rows|
    ensures r.Some? ==> forall i :: 0 <= i < |r.value| ==> KeepsRow(r.value[i], details)
  {
    if rows == [] then Some([])
    else if Nullish(rows[0]) || Nullish(details) then None
    else
      match RemoveById(rows[1..], details)
      case None => None
      case Some(rest) => if KeepsRow(rows[0], details) then Some([rows[0]] + rest) else Some(rest)
  }

  /** The removal throws exactly when some row is null or undefined, or when
      there is a row to test and no user in the modal. */
  lemma {:induction false} RemoveThrowsIff(rows: seq<JsValue>, details: JsValue)
    ensures RemoveById(rows, details).None? <==>
              (exists i :: 0 <= i < |rows| && Nullish(rows[i])) || (rows != [] && Nullish(details))
  {
    if rows != [] {
      RemoveThrowsIff(rows[1..], details);
      assert forall i :: 1 <= i < |rows| ==> rows[i] == rows[1..][i - 1];
    }
  }

  /** Every row whose `_id` differs from the modal user's is kept as often as
      it occurs; every other row is gone. */
  lemma {:induction false} RemoveCounts(rows: seq<JsValue>, details: JsValue, x: JsValue)
    requires RemoveById(rows, details).Some?
    ensures multiset(RemoveById(rows, details).value)[x] ==
              if KeepsRow(x, details) then multiset(rows)[x] else 0
  {
    if rows != [] {
      RemoveCounts(rows[1..], details, x);
      assert rows == [rows[0]] + rows[1..];
    }
  }

  /** The rows left keep their order. */
  lemma {:induction false} RemoveIsSubsequence(rows: seq<JsValue>, details: JsValue)
    requires RemoveById(rows, details).Some?
    ensures IsSubsequence(RemoveById(rows, details).value, rows)
  {
    if rows != [] {
      RemoveIsSubsequence(rows[1..], details);
      var r := RemoveById(rows, details).value;
      if KeepsRow(rows[0], details) {
        assert r[1..] == RemoveById(rows[1..], details).value;
      }
    }
  }

  /** `/editp/delete/${driverDetails?.id}`: the request names the user by
      `id`. */
  function DeletePath(details: JsValue): (path: string)
    ensures Nullish(details) ==> path == DeletePathPrefix + "undefined"
    ensures !Nullish(details) && Read(details, "id").Str? ==> path == DeletePathPrefix + Read(details, "id").s
  {
    DeletePathPrefix + ToString(if Nullish(details) then Undefined else Read(details, "id"))
  }

  /** The request and the list disagree about which key names a user: a
      user known only by `_id` is removed from the list while the server is
      asked to delete user "undefined". */
  lemma DeleteNamesOtherKey(uid: string)
    ensures var user := Obj(map["_id" := Str(uid)]);
            DeletePath(user) == DeletePathPrefix + "undefined" && RemoveById([user], user) == Some([])
  {
    var user := Obj(map["_id" := Str(uid)]);
    assert !KeepsRow(user, user);
    assert [user][1..] == [];
  }

  /** When the modal user has no `_id`, the removal drops every row that has
      none either, not only the user's own row. */
  lemma MissingIdsAllRemoved(rows: seq<JsValue>, details: JsValue, x: JsValue)
    requires RemoveById(rows, details).Some?
    requires !Nullish(details) && Read(details, "_id") == Undefined
    requires x in rows && !Nullish(x) && Read(x, "_id") == Undefined
    ensures x !in RemoveById(rows, details).value
  {
    RemoveCounts(rows, details, x);
  }

  /** What the user list request gives back: `data` and `totalCount`. */
  datatype UserPage = UserPage(data: JsValue, totalCount: int)

  class Page {
    var drivers: JsValue
    var isModalOpen: bool
    var selectedUserPhone: JsValue
    var selectedUser: JsValue
    var driverDetails: JsValue
    var loading: bool
    var totalUsers: int
    var currentPage: int

    constructor ()
      ensures drivers == Arr([]) && !isModalOpen && loading
      ensures selectedUserPhone == Null && selectedUser == Null && driverDetails == Null
      ensures totalUsers == 0 && currentPage == 1
    {
      drivers := Arr([]);
      isModalOpen := false;
      selectedUserPhone := Null;
      selectedUser := Null;
      driverDetails := Null;
      loading := true;
      totalUsers := 0;
      currentPage := 1;
    }

    function TotalPages(): (pages: int)
      reads this
      ensures UsersPerPage * (pages - 1) < totalUsers <= UsersPerPage * pages
    {
      Pagination.TotalPages(totalUsers, UsersPerPage)
    }

    /** The delete modal is on screen. */
    predicate ModalShown()
      reads this
      ensures ModalShown() ==> isModalOpen && !Nullish(selectedUser)
    {
      isModalOpen && Truthy(selectedUser)
    }

    method Prev()
      modifies this`currentPage
      ensures currentPage == Pagination.PrevPage(old(currentPage))
    {
      currentPage := Pagination.PrevPage(currentPage);
    }

    method Next()
      modifies this`currentPage
      ensures currentPage == Pagination.NextPage(old(currentPage), TotalPages())
    {
      currentPage := Pagination.NextPage(currentPage, TotalPages());
    }

    method GoTo(page: int)
      modifies this`currentPage
      ensures currentPage == page
    {
      currentPage := page;
    }

    /** `fetchDrivers`, given what the request gave back. */
    method FetchDrivers(response: Response<UserPage>)
      modifies this`loading, this`drivers, this`totalUsers
      ensures !loading
      ensures response.Ok? ==> drivers == response.body.data && totalUsers == response.body.totalCount
      ensures response.Failed? ==> drivers == old(drivers) && totalUsers == old(totalUsers)
    {
      loading := true;
      if response.Ok? {
        drivers := response.body.data;
        totalUsers := response.body.totalCount;
      }
      loading := false;
    }

    /** The effect that loads the modal user's travel history once the modal
        is open and a phone number is set. */
    method FetchSelectedUser(response: Response<JsValue>)
      modifies this`selectedUser
      ensures isModalOpen && Truthy(selectedUserPhone) && response.Ok? ==> selectedUser == response.body
      ensures !(isModalOpen && Truthy(selectedUserPhone) && response.Ok?) ==> selectedUser == old(selectedUser)
    {
      if isModalOpen && Truthy(selectedUserPhone) && response.Ok? {
        selectedUser := response.body;
      }
    }

    /** `handleDeleteClick`, on a row of the table (rendering the row has
        already read its `_id`, so it is not null). */
    method HandleDeleteClick(user: JsValue)
      requires !Nullish(user)
      modifies this`driverDetails, this`selectedUserPhone, this`isModalOpen
      ensures driverDetails == user && selectedUserPhone == Read(user, "phoneNumber") && isModalOpen
    {
      driverDetails := user;
      selectedUserPhone := Read(user, "phoneNumber");
      isModalOpen := true;
    }

    /** `handleDeleteConfirm`, given the outcome of the delete request; it
        returns the path the request was sent to. A failed request, a list
        that is not an array, or a throwing filter is caught and changes
        nothing. */
    method HandleDeleteConfirm(response: Response<JsValue>) returns (path: string)
      modifies this`drivers, this`isModalOpen, this`selectedUser
      ensures path == DeletePath(driverDetails)
      ensures response.Ok? && old(drivers).Arr? && RemoveById(old(drivers).items, driverDetails).Some? ==>
                drivers == Arr(RemoveById(old(drivers).items, driverDetails).value) && !isModalOpen && selectedUser == Null
      ensures !(response.Ok? && old(drivers).Arr? && RemoveById(old(drivers).items, driverDetails).Some?) ==>
                drivers == old(drivers) && isModalOpen == old(isModalOpen) && selectedUser == old(selectedUser)
    {
      path := DeletePath(driverDetails);
      if response.Ok? && drivers.Arr? {
        match RemoveById(drivers.items, driverDetails) {
          case Some(kept) =>
            drivers := Arr(kept);
            isModalOpen := false;
            selectedUser := Null;
          case None =>
        }
      }
    }

    /** `handleModalClose`. */
    method HandleModalClose()
      modifies this`isModalOpen, this`selectedUser
      ensures !isModalOpen && selectedUser == Null
      ensures !ModalShown()
    {
      isModalOpen := false;
      selectedUser := Null;
    }
  }
}
