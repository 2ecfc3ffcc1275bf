/** The identity of a user, shared by the accounts and opportunities models. */
module Users {
  /** A user's database id. */
  type UserId = nat
}
