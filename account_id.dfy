/** The identifier of an account, the key into both stores. */
module AccountIds {
  datatype AccountId = AccountId(uuid: string)
}
