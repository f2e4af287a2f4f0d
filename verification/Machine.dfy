/** Machine integers, results and error codes shared by every module. */
module Machine {
  const U8_MAX: int := 0xFF
  const U32_MAX: int := 0xFFFF_FFFF
  const U64_MAX: int := 0xFFFF_FFFF_FFFF_FFFF
  const I64_MIN: int := -0x8000_0000_0000_0000
  const I64_MAX: int := 0x7FFF_FFFF_FFFF_FFFF

  type u8 = x: int | 0 <= x <= U8_MAX
  type u32 = x: int | 0 <= x <= U32_MAX
  type u64 = x: int | 0 <= x <= U64_MAX
  type i64 = x: int | I64_MIN <= x <= I64_MAX

  predicate InI64(x: int) { I64_MIN <= x <= I64_MAX }

  /** Rust integer division, which truncates toward zero. */
  function TruncDiv(a: int, b: int): int
    requires b > 0
  {
    if a >= 0 then a / b else -((-a) / b)
  }

  datatype Option<+T> = None | Some(value: T)

  datatype Result<+T> = Ok(value: T) | Err(error: Error)

  /** The program's error codes, then the failures raised outside its handlers. */
  datatype Error =
    | InvalidGroupStatus
    | GroupFull
    | UnauthorizedCreator
    | InsufficientMembers
    | CycleNotEnded
    | AlreadyDeposited
    | CycleEnded
    | InvalidGroupCode
    | InvalidFrequency
    | InvalidGroupSize
    | InvalidPeriodCount
    | InvalidDepositAmount
    | ArithmeticOverflow
    | InvalidMint
    | MemberCountMismatch
    | InvalidAccountOwner
    | InvalidMemberRecord
    | InvalidTokenAccountOwner
    | DuplicateMemberRecord
    | InvalidRentPayer
    | RecordRetentionNotElapsed
    | UnsupportedMint
    | MintNotWritable
    | GroupHasOpenRecords
    | GroupHasMembers
    | InvalidJoinAuthority
    | JoinNotApproved
    | DurableNonceNotAllowed
    | GroupNotClosed
    | JoinCountMismatch
    | ExpectedJoinsRequired
    | TermsMismatch
    | VaultShortfall
      // Anchor account checks
    | AccountNotSigner
    | AccountNotInitialized
    | AccountInUse
    | ConstraintSeeds
    | ConstraintRaw
      // A failed call into the token program, and an index outside a fixed array
    | TokenProgramError
    | IndexOutOfBounds
}
