/**
 * The start-up bootstrap of the admin table: when there is no administrator
 * yet, the default account `admin` is created; an error of the database is
 * reported to the caller rather than swallowed.
 */
module DbInit {
  import opened Wrappers
  import opened AuthService

  const DefaultUsername: string := "admin"
  const DefaultPassword: string := "Admin123!"

  /**
   * `initializeDatabase()`. `outage` is the error the database raises on
   * the first query when it cannot be reached; `salt` is the salt bcrypt
   * draws for the default password.
   */
  method InitializeDatabase(store: AdminStore, crypto: Crypto, salt: string, outage: Option<string>)
    returns (result: Result<(), string>)
    requires store.Valid()
    modifies store
    ensures store.Valid()
    ensures outage.Some? ==> result == Failure(outage.value) && unchanged(store)
    ensures outage.None? ==> result == Success(())
    ensures outage.None? && old(store.users) == [] ==>
      store.users == [AdminUser(old(store.nextId), DefaultUsername, crypto.hash(DefaultPassword, salt))]
    ensures outage.None? && old(store.users) != [] ==> unchanged(store)
    ensures result.Success? ==> store.CheckIfAdminExists()
  {
    if outage.Some? {
      return Failure(outage.value);
    }
    var adminExists := store.CheckIfAdminExists();
    if !adminExists {
      assert IndexOf(store.users, DefaultUsername).None?;
      var created := store.CreateAdminUser(crypto, DefaultUsername, DefaultPassword, salt);
      assert created.Success?;
    }
    result := Success(());
    assert store.users[0] in store.users;
  }
}
