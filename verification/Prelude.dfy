/**
 Shared vocabulary: identifiers, optional values, and the outcome of a database
 transaction, which either commits a value or rolls back with a reason.
 */
module Prelude {
  type UserId = nat
  type OrgId = nat
  type TaskId = nat
  type SubmissionId = nat
  type CollectibleId = nat
  type Key = string

  /** A positive number of base units: the ledger's CreditAmount. */
  type CreditAmount = n: int | 0 < n witness 1

  /** Owner of a credit account or of a collectible. Accounts are unique per owner, so the owner names the account. */
  datatype Party = User(id: UserId) | Organization(org: OrgId) | Team(team: nat)

  datatype Option<+T> = None | Some(value: T)

  /** Why a transaction was refused. */
  datatype Reason =
    | NoAccount | TaskNotFound | NotTaskOwner | NotReviewer | TaskNotDraft | TaskNotOpen | TaskNotRefundable
    | AmountMismatch | AlreadyFunded | InsufficientCredits | KeyReused | NothingToRefund | ConstraintViolated
    | SubmissionNotFound | SubmissionNotReviewable | AcceptedWithOtherKey | RejectedWithOtherKey | ChangesWithOtherKey
    | AlreadyHasAccepted | FundMissing | PayoutExceedsFund | OrganizationCannotPay | SpendRefused | SelfTransfer
    | PermissionDenied | RewardNotFunded | BadTransition
    | CollectibleNotFound | NotCollectibleOwner | CollectibleNotAvailable | PolicyForbids | WrongOrganization
    | BundleRefundedTogether | EntryNotFound | EntryUnavailable | LiveInstanceExists | CapReached | NotFromCatalog
    | NotWithdrawn | EntryHasInstances | BadCap | AlreadyExists

  datatype Outcome<+T> = Ok(value: T) | Refuse(reason: Reason) {
    predicate IsFailure() {
      Refuse?
    }

    function PropagateFailure<U>(): Outcome<U>
      requires Refuse?
    {
      Refuse(reason)
    }

    function Extract(): T
      requires Ok?
    {
      value
    }
  }

  /** Decimal text of an identifier, as it is spliced into derived keys. */
  function Text(n: nat): (s: string)
    ensures s != ""
  {
    var digit := ['0' + (n % 10) as char];
    if n < 10 then digit else Text(n / 10) + digit
  }

  /** Reading digits as a decimal number. */
  function Reading(s: string): int {
    if s == "" then 0 else 10 * Reading(s[..|s| - 1]) + (s[|s| - 1] as int - '0' as int)
  }

  /** The text of an identifier is its decimal numeral, without leading zeros. */
  lemma {:induction false} TextReads(n: nat)
    ensures Reading(Text(n)) == n && (forall c <- Text(n) :: '0' <= c <= '9') && (|Text(n)| > 1 ==> Text(n)[0] != '0')
  {
    var s := Text(n);
    if n >= 10 {
      TextReads(n / 10);
      assert s[..|s| - 1] == Text(n / 10);
      assert n / 10 < 10 ==> Text(n / 10)[0] != '0';
    } else {
      assert s[..0] == "";
    }
  }

  lemma {:induction false} TextInjective(m: nat, n: nat)
    requires Text(m) == Text(n)
    ensures m == n
  {
    var s := Text(m);
    assert s[|s| - 1] == '0' + (m % 10) as char == '0' + (n % 10) as char;
    if m >= 10 && n >= 10 {
      assert Text(m / 10) == s[..|s| - 1] == Text(n / 10);
      TextInjective(m / 10, n / 10);
    }
  }

  lemma {:induction false} HasMax(s: set<nat>)
    requires s != {}
    ensures exists m :: m in s && forall x <- s :: x <= m
  {
    var x :| x in s;
    if s != {x} {
      HasMax(s - {x});
      var m :| m in s - {x} && forall y <- s - {x} :: y <= m;
      var top := if x <= m then m else x;
      forall y <- s ensures y <= top {
        assert y == x || y in s - {x};
      }
      assert top in s;
    }
  }

  function MaxOf(s: set<nat>): (m: nat)
    ensures forall x <- s :: x <= m
    ensures s != {} ==> m in s
  {
    if s == {} then 0
    else
      HasMax(s);
      var m :| m in s && forall x <- s :: x <= m;
      m
  }

  lemma HasMin(s: set<nat>)
    requires s != {}
    ensures exists m :: m in s && forall x <- s :: m <= x
  {
    var x :| x in s;
    HasMinBelow(s, x);
  }

  lemma {:induction false} HasMinBelow(s: set<nat>, x: nat)
    requires x in s
    ensures exists m :: m in s && forall y <- s :: m <= y
    decreases x
  {
    if y: nat :| y in s && y < x {
      HasMinBelow(s, y);
    } else {
      assert forall y <- s :: x <= y;
    }
  }

  function MinOf(s: set<nat>): (m: nat)
    requires s != {}
    ensures m in s && forall x <- s :: m <= x
  {
    HasMin(s);
    var m :| m in s && forall x <- s :: m <= x;
    m
  }
}
