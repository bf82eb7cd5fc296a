/**
 * MySQL `CREATE USER user_specification [, user_specification] ...`.
 *
 * A CreateUserQuery keeps its user specifications in the order `user()`
 * created them; each specification names an account at a host and may carry
 * a password (`IDENTIFIED BY`) or an authentication plugin
 * (`IDENTIFIED WITH`). A truthy password wins over the plugin.
 */
module CreateUserQueries {
  import opened Php
  import Strings
  import opened Drivers
  import opened ArgumentArrays

  /** The four fields of a UserSpecification, as a value. */
  datatype UserSpec = UserSpec(account: string, host: string, password: Option<string>, authPlugin: Option<string>)

  /** The IDENTIFIED clause of one specification: the password first, then the plugin, else nothing. */
  function IdentifiedSql(d: Driver, u: UserSpec): string {
    if TruthyString(u.password) then " IDENTIFIED BY " + d.quote(u.password.value)
    else if TruthyString(u.authPlugin) then " IDENTIFIED WITH " + d.quoteIdentifier(u.authPlugin.value)
    else ""
  }

  /** The fragment one specification contributes: `account@host` and its IDENTIFIED clause. */
  function SpecSql(d: Driver, u: UserSpec): string {
    d.quoteIdentifier(u.account) + "@" + d.quoteIdentifier(u.host) + IdentifiedSql(d, u)
  }

  /** The fragments of `us`, in order. */
  function Fragments(d: Driver, us: seq<UserSpec>): (fs: seq<string>)
    ensures |fs| == |us|
    ensures forall i :: 0 <= i < |us| ==> fs[i] == SpecSql(d, us[i])
  {
    if us == [] then [] else Fragments(d, us[..|us| - 1]) + [SpecSql(d, us[|us| - 1])]
  }

  /** The statement for the specifications `us`. */
  function CreateUserSql(d: Driver, us: seq<UserSpec>): string {
    "CREATE USER " + Strings.Join(", ", Fragments(d, us))
  }

  /** The field values of the specification objects `us`, in order. */
  function Values(us: seq<UserSpecification>): (vs: seq<UserSpec>)
    reads us
    ensures |vs| == |us|
    ensures forall i :: 0 <= i < |us| ==> vs[i] == us[i].Value()
  {
    if us == [] then [] else Values(us[..|us| - 1]) + [us[|us| - 1].Value()]
  }

  // ---------------------------------------------------------------------
  // Properties of the statement text

  /** A truthy password decides the clause: the plugin is then irrelevant. */
  lemma PasswordWins(d: Driver, u: UserSpec, plugin: Option<string>)
    requires TruthyString(u.password)
    ensures SpecSql(d, u.(authPlugin := plugin)) == SpecSql(d, u)
    ensures SpecSql(d, u) == d.quoteIdentifier(u.account) + "@" + d.quoteIdentifier(u.host)
                             + " IDENTIFIED BY " + d.quote(u.password.value)
  {
  }

  /**
   * Without a truthy password the plugin decides: `IDENTIFIED WITH` when it
   * is truthy, no clause at all otherwise.
   */
  lemma PluginWithoutPassword(d: Driver, u: UserSpec)
    requires !TruthyString(u.password)
    ensures TruthyString(u.authPlugin) ==>
      SpecSql(d, u) == d.quoteIdentifier(u.account) + "@" + d.quoteIdentifier(u.host)
                       + " IDENTIFIED WITH " + d.quoteIdentifier(u.authPlugin.value)
    ensures !TruthyString(u.authPlugin) ==>
      SpecSql(d, u) == d.quoteIdentifier(u.account) + "@" + d.quoteIdentifier(u.host)
  {
  }

  /**
   * Adding one more specification extends the statement by its fragment,
   * separated by `", "` from the ones before: the fragments appear in the
   * order of the specifications.
   */
  lemma {:induction false} CreateUserAppend(d: Driver, us: seq<UserSpec>, u: UserSpec)
    ensures CreateUserSql(d, us + [u]) ==
      CreateUserSql(d, us) + (if us == [] then "" else ", ") + SpecSql(d, u)
  {
    assert (us + [u])[..|us|] == us;
    assert Fragments(d, us + [u]) == Fragments(d, us) + [SpecSql(d, u)];
    Strings.JoinSnoc(", ", Fragments(d, us), SpecSql(d, u));
  }

  /** The statement for a single specification is `CREATE USER` and its fragment. */
  lemma SingleUser(d: Driver, u: UserSpec)
    ensures CreateUserSql(d, [u]) == "CREATE USER " + SpecSql(d, u)
  {
    CreateUserAppend(d, [], u);
  }

  class UserSpecification {
    var account: string
    /** `'localhost'` until `host()` is called */
    var host: string
    var password: Option<string>
    var authPlugin: Option<string>
    /** The query that created this specification (target of the forwarded calls). */
    const parent: CreateUserQuery

    function Value(): UserSpec
      reads this
    {
      UserSpec(account, host, password, authPlugin)
    }

    constructor(parent: CreateUserQuery, account: string)
      ensures this.parent == parent
      ensures Value() == UserSpec(account, "localhost", None, None)
    {
      this.parent := parent;
      this.account := account;
      host := "localhost";
      password := None;
      authPlugin := None;
    }

    /** `account($account)`. */
    method Account(account: string) returns (self: UserSpecification)
      modifies this
      ensures self == this
      ensures Value() == old(Value()).(account := account)
    {
      this.account := account;
      self := this;
    }

    /** `host($host)`. */
    method Host(host: string) returns (self: UserSpecification)
      modifies this
      ensures self == this
      ensures Value() == old(Value()).(host := host)
    {
      this.host := host;
      self := this;
    }

    /** `identifiedBy($pass)`. */
    method IdentifiedBy(pass: Option<string>) returns (self: UserSpecification)
      modifies this
      ensures self == this
      ensures Value() == old(Value()).(password := pass)
    {
      password := pass;
      self := this;
    }

    /** `identifiedWith($authPlugin)`. */
    method IdentifiedWith(authPlugin: Option<string>) returns (self: UserSpecification)
      modifies this
      ensures self == this
      ensures Value() == old(Value()).(authPlugin := authPlugin)
    {
      this.authPlugin := authPlugin;
      self := this;
    }

    /** `getAccount()`. */
    method GetAccount() returns (a: string)
      ensures a == Value().account
    {
      a := account;
    }

    /** `getPassword()`. */
    method GetPassword() returns (p: Option<string>)
      ensures p == Value().password
    {
      p := password;
    }

    /** `getHost()`. */
    method GetHost() returns (h: string)
      ensures h == Value().host
    {
      h := host;
    }

    /** `getAuthPlugin()`. */
    method GetAuthPlugin() returns (p: Option<string>)
      ensures p == Value().authPlugin
    {
      p := authPlugin;
    }
  }

  class CreateUserQuery {
    var userSpecifications: seq<UserSpecification>

    /** Every specification in the list was created by this query. */
    ghost predicate Valid()
      reads this
    {
      forall u :: u in userSpecifications ==> u.parent == this
    }

    /** The specifications' current field values, in order. */
    function Specs(): seq<UserSpec>
      reads this, userSpecifications
    {
      Values(userSpecifications)
    }

    constructor()
      ensures Valid() && userSpecifications == []
    {
      userSpecifications := [];
    }

    /** `user($account)`: a new specification, appended last and returned. */
    method User(account: string) returns (u: UserSpecification)
      requires Valid()
      modifies this
      ensures Valid()
      ensures fresh(u) && u.parent == this
      ensures userSpecifications == old(userSpecifications) + [u]
      ensures Specs() == old(Specs()) + [UserSpec(account, "localhost", None, None)]
    {
      u := new UserSpecification(this, account);
      assert (userSpecifications + [u])[..|userSpecifications|] == userSpecifications;
      userSpecifications := userSpecifications + [u];
    }

    /**
     * `toSql($driver, $args)`: one fragment per specification, joined by
     * `", "` after `CREATE USER`; the argument ledger is left as it was.
     */
    method ToSql(d: Driver, args: ArgumentArray) returns (sql: string)
      ensures sql == CreateUserSql(d, Specs())
      ensures args.args == old(args.args) && args.bindings == old(args.bindings)
    {
      var specSql: seq<string> := [];
      var i := 0;
      while i < |userSpecifications|
        invariant 0 <= i <= |userSpecifications|
        invariant |specSql| == i
        invariant forall j :: 0 <= j < i ==> specSql[j] == SpecSql(d, userSpecifications[j].Value())
      {
        var spec := userSpecifications[i];
        var s := d.quoteIdentifier(spec.account) + "@" + d.quoteIdentifier(spec.host);
        if TruthyString(spec.password) {
          s := s + " IDENTIFIED BY " + d.quote(spec.password.value);
        } else if TruthyString(spec.authPlugin) {
          s := s + " IDENTIFIED WITH " + d.quoteIdentifier(spec.authPlugin.value);
        }
        specSql := specSql + [s];
        i := i + 1;
      }
      assert specSql == Fragments(d, Specs());
      sql := "CREATE USER " + Strings.Join(", ", specSql);
    }
  }
}
