/**
 * The two closed code sets of the project package (`Py_Diplom_new/enums.py`):
 * the states an order can be in and the roles an account can have. Each is a
 * Django `TextChoices`, i.e. a fixed set of members each stored as a string code.
 */
module Enums {
  import opened Wrappers

  /** The states of an order, stored in the `Order.status` column. */
  datatype Status = Basket | New | Confirmed | Assembled | Sent | Delivered | Canceled

  const AllStatuses: set<Status> := {Basket, New, Confirmed, Assembled, Sent, Delivered, Canceled}

  /** `max_length` of the `Order.status` column. */
  const StatusColumnLength: nat := 15

  /** The string under which a state is stored. */
  function StatusCode(s: Status): (code: string)
    ensures 0 < |code| <= StatusColumnLength
  {
    match s
    case Basket => "basket"
    case New => "new"
    case Confirmed => "confirmed"
    case Assembled => "assembled"
    case Sent => "sent"
    case Delivered => "delivered"
    case Canceled => "canceled"
  }

  /** Reads a stored code back; any string that is not one of the seven codes is rejected. */
  function ParseStatus(code: string): (r: Option<Status>)
    ensures r.Some? ==> StatusCode(r.value) == code
  {
    if code == "basket" then Some(Basket)
    else if code == "new" then Some(New)
    else if code == "confirmed" then Some(Confirmed)
    else if code == "assembled" then Some(Assembled)
    else if code == "sent" then Some(Sent)
    else if code == "delivered" then Some(Delivered)
    else if code == "canceled" then Some(Canceled)
    else None
  }

  lemma StatusRoundTrip(s: Status)
    ensures ParseStatus(StatusCode(s)) == Some(s)
  {
  }

  /** Parsing fails exactly on the strings that are no state's code. */
  lemma ParseStatusRejects(code: string)
    ensures ParseStatus(code).None? <==> forall s: Status :: StatusCode(s) != code
  {
    if ParseStatus(code).None? {
      forall s: Status ensures StatusCode(s) != code {
        StatusRoundTrip(s);
      }
    }
  }

  /** `Status` has exactly seven members, and distinct members have distinct codes. */
  lemma StatusIsSevenCodes()
    ensures |AllStatuses| == 7
    ensures forall s: Status :: s in AllStatuses
    ensures forall s: Status, t: Status :: StatusCode(s) == StatusCode(t) ==> s == t
  {
    forall s: Status ensures s in AllStatuses {
      match s
      case Basket => case New => case Confirmed => case Assembled =>
      case Sent => case Delivered => case Canceled =>
    }
    forall s: Status, t: Status | StatusCode(s) == StatusCode(t) ensures s == t {
      StatusRoundTrip(s);
      StatusRoundTrip(t);
    }
  }

  /** The kinds of account, stored in the `User.role` column. */
  datatype Role = Shop | Buyer

  const AllRoles: set<Role> := {Shop, Buyer}

  /** `max_length` of the `User.role` column. */
  const RoleColumnLength: nat := 10

  function RoleCode(r: Role): (code: string)
    ensures 0 < |code| <= RoleColumnLength
  {
    match r
    case Shop => "shop"
    case Buyer => "buyer"
  }

  function ParseRole(code: string): (r: Option<Role>)
    ensures r.Some? ==> RoleCode(r.value) == code
  {
    if code == "shop" then Some(Shop)
    else if code == "buyer" then Some(Buyer)
    else None
  }

  lemma RoleRoundTrip(r: Role)
    ensures ParseRole(RoleCode(r)) == Some(r)
  {
  }

  lemma ParseRoleRejects(code: string)
    ensures ParseRole(code).None? <==> forall r: Role :: RoleCode(r) != code
  {
    if ParseRole(code).None? {
      forall r: Role ensures RoleCode(r) != code {
        RoleRoundTrip(r);
      }
    }
  }

  /** `Role` has exactly two members with distinct codes. */
  lemma RoleIsTwoCodes()
    ensures |AllRoles| == 2
    ensures forall r: Role :: r in AllRoles
    ensures RoleCode(Shop) != RoleCode(Buyer)
  {
    forall r: Role ensures r in AllRoles {
      match r
      case Shop => case Buyer =>
    }
  }
}
