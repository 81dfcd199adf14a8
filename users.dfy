/** The part of a user account that the lifecycle core reads or writes. */
module Users {

  datatype AccountStatus = Active | Inactive | Suspended

  /** `reputation` is kept in hundredths: 450 stands for 4.50. */
  datatype User = User(
    status: AccountStatus,
    isStudent: bool,
    isVerified: bool,
    reputation: int)
}
