/**
 * The connection-string restriction of `SqliteDsn`: the URL's scheme, once
 * lower-cased, must be one of four SQLite variants, and the URL need not name
 * a host. The URL type inherits that lower-casing from its base class.
 *
 * Scheme names follow SQLAlchemy's `dialect+driver` convention; `Dialect`,
 * `Driver` and `Compose` give that reading, and
 * `SchemeAcceptedIffSqliteDialect` shows that the four accepted schemes are
 * exactly the `sqlite` dialect with no driver or one of three drivers.
 */
module SqliteDsn {
  import opened Wrappers

  /** The schemes a SQLite connection string may use. */
  const AllowedSchemes: set<string> :=
    {"sqlite", "sqlite+pysqlite", "sqlite+aiosqlite", "sqlite+pysqlcipher"}

  /** A SQLite URL may omit its host (a file path or `:memory:` follows the scheme). */
  const HostRequired: bool := false

  datatype DsnError =
      /** The scheme is not among the permitted ones, which the error lists. */
    | SchemeNotPermitted(allowed: set<string>)
      /** No host, where the URL type requires one. */
    | HostMissing

  /** An ASCII upper-case letter mapped to its lower-case form; any other character is kept. */
  function LowerChar(c: char): (l: char)
    ensures 'A' <= c <= 'Z' ==> l as int == c as int + 32 && 'a' <= l <= 'z'
    ensures !('A' <= c <= 'Z') ==> l == c
  {
    if 'A' <= c <= 'Z' then (c as int + 32) as char else c
  }

  /** The scheme in lower case, character by character. */
  function Lower(s: string): (r: string)
    ensures |r| == |s|
    ensures forall i :: 0 <= i < |s| ==> r[i] == LowerChar(s[i])
  {
    if s == [] then [] else [LowerChar(s[0])] + Lower(s[1..])
  }

  /**
   * The two checks this URL type configures, on an already split URL: the
   * lower-cased scheme against the permitted set, then the host against
   * `HostRequired`.
   */
  function CheckSchemeAndHost(scheme: string, host: Option<string>): (r: Result<(), DsnError>)
    ensures r.Ok? <==> Lower(scheme) in AllowedSchemes
    ensures r.Err? ==> r.error == SchemeNotPermitted(AllowedSchemes)
  {
    if Lower(scheme) !in AllowedSchemes then Err(SchemeNotPermitted(AllowedSchemes))
    else if host.None? && HostRequired then Err(HostMissing)
    else Ok(())
  }

  /** The check does not depend on the case of the scheme's letters. */
  lemma CheckIgnoresCase(scheme: string, host: Option<string>)
    ensures CheckSchemeAndHost(scheme, host) == CheckSchemeAndHost(Lower(scheme), host)
  {
    assert Lower(Lower(scheme)) == Lower(scheme);
  }

  /** A mixed-case scheme such as `SQLite` is accepted. */
  lemma MixedCaseSchemeAccepted()
    ensures CheckSchemeAndHost("SQLite", None).Ok?
  {
    assert Lower("SQLite") == "sqlite";
  }

  /** Whether a host is given or not never changes the verdict. */
  lemma HostNeverRequired(scheme: string, h1: Option<string>, h2: Option<string>)
    ensures CheckSchemeAndHost(scheme, h1) == CheckSchemeAndHost(scheme, h2)
  {
  }

  /** The dialect of a scheme: everything before its first `+` (all of it if there is none). */
  function Dialect(scheme: string): (d: string)
    ensures d <= scheme
    ensures '+' !in d
    ensures |d| < |scheme| ==> scheme[|d|] == '+'
  {
    if scheme == [] || scheme[0] == '+' then []
    else [scheme[0]] + Dialect(scheme[1..])
  }

  /** The driver of a scheme: what follows its first `+`, if it has one. */
  function Driver(scheme: string): (drv: Option<string>)
    ensures drv.None? <==> '+' !in scheme
    ensures drv.Some? ==> scheme == Dialect(scheme) + "+" + drv.value
  {
    var d := Dialect(scheme);
    if |d| == |scheme| then None else Some(scheme[|d| + 1..])
  }

  /** The scheme naming a dialect, with or without a driver. */
  function Compose(dialect: string, driver: Option<string>): string
  {
    match driver
    case None => dialect
    case Some(drv) => dialect + "+" + drv
  }

  /** A `+`-free prefix followed by nothing or by a `+` is the dialect. */
  lemma {:induction false} DialectOfPlusFreePrefix(prefix: string, rest: string)
    requires '+' !in prefix
    requires rest == [] || rest[0] == '+'
    ensures Dialect(prefix + rest) == prefix
  {
    if prefix != [] {
      assert (prefix + rest)[1..] == prefix[1..] + rest;
      DialectOfPlusFreePrefix(prefix[1..], rest);
    }
  }

  /** Splitting a composed scheme gives back its dialect and driver. */
  lemma SplitCompose(dialect: string, driver: Option<string>)
    requires '+' !in dialect
    ensures Dialect(Compose(dialect, driver)) == dialect
    ensures Driver(Compose(dialect, driver)) == driver
  {
    var s := Compose(dialect, driver);
    match driver
    case None =>
      DialectOfPlusFreePrefix(dialect, []);
      assert s == dialect + [];
    case Some(drv) =>
      DialectOfPlusFreePrefix(dialect, "+" + drv);
      assert s == dialect + ("+" + drv);
      assert s[|dialect| + 1..] == drv;
  }

  /** Composing the parts of any scheme gives the scheme back. */
  lemma ComposeSplit(scheme: string)
    ensures Compose(Dialect(scheme), Driver(scheme)) == scheme
  {
  }

  const SqliteDialect: string := "sqlite"

  /** The drivers the accepted schemes name: none, pysqlite, aiosqlite and pysqlcipher. */
  const SqliteDrivers: set<Option<string>> :=
    {None, Some("pysqlite"), Some("aiosqlite"), Some("pysqlcipher")}

  /** The SQLite dialect with one of its drivers splits back into those parts. */
  lemma SqliteVariantSplits(drv: Option<string>)
    requires drv in SqliteDrivers
    ensures Dialect(Compose(SqliteDialect, drv)) == SqliteDialect
    ensures Driver(Compose(SqliteDialect, drv)) == drv
  {
    SplitCompose(SqliteDialect, drv);
  }

  /** The SQLite dialect with any one of its drivers is an allowed scheme. */
  lemma SqliteVariantAllowed(drv: Option<string>)
    requires drv in SqliteDrivers
    ensures Compose(SqliteDialect, drv) in AllowedSchemes
  {
    assert Compose(SqliteDialect, Some("pysqlite")) == "sqlite+pysqlite";
    assert Compose(SqliteDialect, Some("aiosqlite")) == "sqlite+aiosqlite";
    assert Compose(SqliteDialect, Some("pysqlcipher")) == "sqlite+pysqlcipher";
  }

  /** Every allowed scheme is the SQLite dialect with one of its drivers. */
  lemma AllowedSchemeDriver(scheme: string) returns (drv: Option<string>)
    requires scheme in AllowedSchemes
    ensures drv in SqliteDrivers && scheme == Compose(SqliteDialect, drv)
  {
    drv :=
      if scheme == "sqlite" then None
      else if scheme == "sqlite+pysqlite" then Some("pysqlite")
      else if scheme == "sqlite+aiosqlite" then Some("aiosqlite")
      else Some("pysqlcipher");
    SqliteVariantAllowed(drv);
  }

  /**
   * A scheme passes the check exactly when, lower-cased, it is the SQLite
   * dialect with one of its drivers.
   */
  lemma SchemeAcceptedIffSqliteDialect(scheme: string, host: Option<string>)
    ensures CheckSchemeAndHost(scheme, host).Ok?
            <==> Dialect(Lower(scheme)) == SqliteDialect && Driver(Lower(scheme)) in SqliteDrivers
  {
    var s := Lower(scheme);
    if s in AllowedSchemes {
      var drv := AllowedSchemeDriver(s);
      SqliteVariantSplits(drv);
    }
    if Dialect(s) == SqliteDialect && Driver(s) in SqliteDrivers {
      ComposeSplit(s);
      SqliteVariantAllowed(Driver(s));
    }
  }
}
