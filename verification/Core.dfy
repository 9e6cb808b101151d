/** Types shared by every service of the model. */
module Core {

  /** Database ids (cuid text). */
  type Id = string

  datatype Option<+T> = None | Some(value: T) {
    function GetOr(default: T): T {
      match this
      case Some(v) => v
      case None => default
    }
  }

  datatype Result<+T> = Ok(value: T) | Err(error: Error)

  /** The value of a request that returns nothing of interest. */
  datatype Done = Done

  /** The error codes the services throw, one constructor per code. */
  datatype Error =
    | NotFound
    | AlreadyPublished
    | NoAds
    | NoAdAccount
    | NotPending
    | MakerChecker
    | NoApproval
    | ApprovalExpired
    | ApprovalStale
    | NotPublished
    | NotEditable
    | CellNotFound
    | DuplicateTest
    | NotDraft
    | AdNotPublished
    | NoPixel
    | AbTestStale
    | AbLaunchRolledBack
    | AbTestTerminal
    | NotLaunched
    | NoCellData
    | AbAttributionFailed
    | AlreadyHandled
    | NotApplicable
    | NoCampaign
    | NoBudget
    | BudgetStale
    | AlreadyMember
    | LastOwner
    | MetaFailure
    | DatabaseFailure
    | NoDecryptionKey
    | RateLimited

  datatype EntityType = CampaignType | AdSetType | CreativeType | AdType

  datatype BudgetType = Daily | Lifetime

  function Max(a: int, b: int): int { if a >= b then a else b }
}
