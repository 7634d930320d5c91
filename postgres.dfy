/**
 * The connection settings of the database backend, read from the
 * environment by an error-accumulating builder. Connecting to and querying
 * the database are not modelled; the outcome of connecting is a parameter.
 */
module Postgres {
  import opened Errors
  import opened Decimal

  datatype ConnectionInfo = ConnectionInfo(host: string, port: int, user: string, pass: string, dbName: string)

  const ZeroInfo := ConnectionInfo("", 0, "", "", "")

  /** An open database repository, represented by the settings it was opened with. */
  datatype PostgresRepository = PostgresRepository(info: ConnectionInfo)

  /** os.Getenv: an unset variable reads as the empty string. */
  function Getenv(env: map<string, string>, key: string): (v: string)
    ensures key in env ==> v == env[key]
    ensures key !in env ==> v == ""
  {
    if key in env then env[key] else ""
  }

  /** The error a PG_PORT value contributes: none, the missing-port error, or the parser's error. */
  function PortErrors(port: string): (r: seq<Error>)
    ensures |r| <= 1
    ensures NoPort in r <==> port == ""
    ensures forall x :: x in r ==> x == NoPort || x.AtoiSyntax? || x.AtoiRange?
  {
    if port == "" then [NoPort] else if Atoi(port).1.Some? then [Atoi(port).1.value] else []
  }

  /** The errors WithHost appends, in the order it appends them: none exactly when host and port are usable. */
  function HostErrors(env: map<string, string>): (r: seq<Error>)
    ensures |r| <= 2
    ensures r == [] <==> Getenv(env, "PG_HOST") != "" && Getenv(env, "PG_PORT") != "" && Atoi(Getenv(env, "PG_PORT")).1.None?
    ensures Getenv(env, "PG_HOST") == "" ==> r[0] == NoHost
  {
    (if Getenv(env, "PG_HOST") == "" then [NoHost] else []) + PortErrors(Getenv(env, "PG_PORT"))
  }

  /** The errors WithUserAndPass appends, in the order it appends them: a missing user ahead of a missing password. */
  function UserAndPassErrors(env: map<string, string>): (r: seq<Error>)
    ensures |r| <= 2
    ensures r == [] <==> Getenv(env, "PG_USER") != "" && Getenv(env, "PG_PASS") != ""
    ensures Getenv(env, "PG_USER") == "" ==> r[0] == NoUser
    ensures Getenv(env, "PG_USER") != "" && Getenv(env, "PG_PASS") == "" ==> r == [NoPassword]
  {
    (if Getenv(env, "PG_USER") == "" then [NoUser] else [])
    + (if Getenv(env, "PG_PASS") == "" then [NoPassword] else [])
  }

  /** The errors WithDBName appends: the missing-name error exactly when PG_DBNAME is unset or empty. */
  function DBNameErrors(env: map<string, string>): (r: seq<Error>)
    ensures r == [NoDBName] <==> Getenv(env, "PG_DBNAME") == ""
    ensures r == [] <==> Getenv(env, "PG_DBNAME") != ""
  {
    if Getenv(env, "PG_DBNAME") == "" then [NoDBName] else []
  }

  /** What a fresh builder accumulates under the chain host and port, user and password, database name. */
  function ConfigErrors(env: map<string, string>): (r: seq<Error>)
    ensures |r| <= 5
  {
    HostErrors(env) + UserAndPassErrors(env) + DBNameErrors(env)
  }

  /**
   * The settings a fresh builder accumulates under that chain: the port is
   * a 64-bit number, and 0 when PG_PORT is unset.
   */
  function EnvInfo(env: map<string, string>): (r: ConnectionInfo)
    ensures MinInt64 <= r.port <= MaxInt64
    ensures Getenv(env, "PG_PORT") == "" ==> r.port == 0
  {
    var port := Getenv(env, "PG_PORT");
    ConnectionInfo(Getenv(env, "PG_HOST"), if port == "" then 0 else Atoi(port).0,
                   Getenv(env, "PG_USER"), Getenv(env, "PG_PASS"), Getenv(env, "PG_DBNAME"))
  }

  /** When the chain accumulates no error, every setting it holds is present and the port is the parsed PG_PORT. */
  lemma EnvInfoComplete(env: map<string, string>)
    requires ConfigErrors(env) == []
    ensures var info := EnvInfo(env);
            && info.host != "" && info.user != "" && info.pass != "" && info.dbName != ""
            && info.port == Atoi(Getenv(env, "PG_PORT")).0
  {
  }

  /** Every setting is present and the port is a decimal numeral in range. */
  predicate EnvComplete(env: map<string, string>)
  {
    && Getenv(env, "PG_HOST") != "" && Getenv(env, "PG_PORT") != "" && Atoi(Getenv(env, "PG_PORT")).1.None?
    && Getenv(env, "PG_USER") != "" && Getenv(env, "PG_PASS") != "" && Getenv(env, "PG_DBNAME") != ""
  }

  /** The parser's error for a PG_PORT value, if it has one. */
  function PortParseError(port: string): Option<Error>
  {
    Atoi(port).1
  }

  /**
   * The error opening the database repository reports: the first
   * configuration problem in chain order, else the outcome of connecting.
   */
  function OpenError(env: map<string, string>, connectErr: Option<Error>): (r: Option<Error>)
    ensures connectErr.Some? ==> r.Some?
  {
    var port := Getenv(env, "PG_PORT");
    if Getenv(env, "PG_HOST") == "" then Some(NoHost)
    else if port == "" then Some(NoPort)
    else if PortParseError(port).Some? then PortParseError(port)
    else if Getenv(env, "PG_USER") == "" then Some(NoUser)
    else if Getenv(env, "PG_PASS") == "" then Some(NoPassword)
    else if Getenv(env, "PG_DBNAME") == "" then Some(NoDBName)
    else connectErr
  }

  /** What opening reports is the first error the builder chain accumulated, if there is one. */
  lemma OpenErrorIsFirstConfigError(env: map<string, string>, connectErr: Option<Error>)
    ensures OpenError(env, connectErr) == if ConfigErrors(env) != [] then Some(ConfigErrors(env)[0]) else connectErr
  {
  }

  /**
   * Opening succeeds exactly when every setting is present, the port parses
   * and the connection succeeds. A missing host is reported ahead of
   * everything else, and a missing or bad port ahead of a missing user,
   * password or database name.
   */
  lemma OpenErrorOrder(env: map<string, string>, connectErr: Option<Error>)
    ensures OpenError(env, connectErr).None? <==> EnvComplete(env) && connectErr.None?
    ensures Getenv(env, "PG_HOST") == "" ==> OpenError(env, connectErr) == Some(NoHost)
    ensures Getenv(env, "PG_HOST") != "" && Getenv(env, "PG_PORT") == "" ==> OpenError(env, connectErr) == Some(NoPort)
    ensures Getenv(env, "PG_HOST") != "" && Getenv(env, "PG_PORT") != "" && Atoi(Getenv(env, "PG_PORT")).1.Some?
            ==> OpenError(env, connectErr) == Atoi(Getenv(env, "PG_PORT")).1
    ensures HostErrors(env) == [] && Getenv(env, "PG_USER") == "" ==> OpenError(env, connectErr) == Some(NoUser)
    ensures HostErrors(env) == [] && Getenv(env, "PG_USER") != "" && Getenv(env, "PG_PASS") == ""
            ==> OpenError(env, connectErr) == Some(NoPassword)
    ensures HostErrors(env) + UserAndPassErrors(env) == [] && Getenv(env, "PG_DBNAME") == ""
            ==> OpenError(env, connectErr) == Some(NoDBName)
  {
  }

  /** WithHost reports a missing host or port, and nothing about the other settings. */
  lemma HostErrorsReport(env: map<string, string>)
    ensures NoHost in HostErrors(env) <==> Getenv(env, "PG_HOST") == ""
    ensures NoPort in HostErrors(env) <==> Getenv(env, "PG_PORT") == ""
    ensures NoUser !in HostErrors(env) && NoPassword !in HostErrors(env) && NoDBName !in HostErrors(env)
    ensures |HostErrors(env)| <= 2
  {
    var port := PortErrors(Getenv(env, "PG_PORT"));
    assert NoHost !in port && NoUser !in port && NoPassword !in port && NoDBName !in port;
  }

  /** WithUserAndPass and WithDBName report a missing user, password or database name, and nothing else. */
  lemma CredentialErrorsReport(env: map<string, string>)
    ensures var rest := UserAndPassErrors(env) + DBNameErrors(env);
            && NoHost !in rest && NoPort !in rest
            && (NoUser in rest <==> Getenv(env, "PG_USER") == "")
            && (NoPassword in rest <==> Getenv(env, "PG_PASS") == "")
            && (NoDBName in rest <==> Getenv(env, "PG_DBNAME") == "")
            && |rest| <= 3
  {
    var user, pass := Getenv(env, "PG_USER"), Getenv(env, "PG_PASS");
    assert forall x :: x in UserAndPassErrors(env) <==> (x == NoUser && user == "") || (x == NoPassword && pass == "");
    assert forall x :: x in DBNameErrors(env) <==> x == NoDBName && Getenv(env, "PG_DBNAME") == "";
  }

  /** A port that is set but does not parse is reported with the parser's error. */
  lemma PortParseErrorReported(env: map<string, string>)
    ensures var port := Getenv(env, "PG_PORT");
            port != "" && Atoi(port).1.Some? ==> Atoi(port).1.value in ConfigErrors(env)
  {
    var port := Getenv(env, "PG_PORT");
    if port != "" && Atoi(port).1.Some? {
      assert PortErrors(port) == [Atoi(port).1.value];
      assert HostErrors(env)[|HostErrors(env)| - 1] == Atoi(port).1.value;
    }
  }

  /**
   * Each missing setting is reported exactly when it is missing, and a port
   * that is set but does not parse contributes the parser's error.
   */
  lemma ConfigErrorsReportMissing(env: map<string, string>)
    ensures NoHost in ConfigErrors(env) <==> Getenv(env, "PG_HOST") == ""
    ensures NoPort in ConfigErrors(env) <==> Getenv(env, "PG_PORT") == ""
    ensures NoUser in ConfigErrors(env) <==> Getenv(env, "PG_USER") == ""
    ensures NoPassword in ConfigErrors(env) <==> Getenv(env, "PG_PASS") == ""
    ensures NoDBName in ConfigErrors(env) <==> Getenv(env, "PG_DBNAME") == ""
    ensures var port := Getenv(env, "PG_PORT");
            port != "" && Atoi(port).1.Some? ==> Atoi(port).1.value in ConfigErrors(env)
    ensures |ConfigErrors(env)| <= 5
  {
    HostErrorsReport(env);
    PortParseErrorReported(env);
    CredentialErrorsReport(env);
    assert ConfigErrors(env) == HostErrors(env) + (UserAndPassErrors(env) + DBNameErrors(env));
  }

  /**
   * What the database repository's Append answers, given the outcome of
   * executing the insert and the number of rows the driver reports as
   * affected (or the error reading it). The statement itself runs on the
   * server and is not modelled.
   */
  function DatabaseAppendAnswer(execErr: Option<Error>, rowsAffected: Result<int>): (r: (bool, Option<Error>))
    ensures r.0 <==> r.1.None?
    ensures r.0 <==> execErr.None? && rowsAffected.Ok? && rowsAffected.value != 0
    ensures execErr.Some? ==> r.1 == execErr
    ensures execErr.None? && rowsAffected.Err? ==> r.1 == Some(rowsAffected.error)
    ensures execErr.None? && rowsAffected == Ok(0) ==> r.1 == Some(NoEventAppended)
  {
    if execErr.Some? then (false, execErr)
    else if rowsAffected.Err? then (false, Some(rowsAffected.error))
    else if rowsAffected.value == 0 then (false, Some(NoEventAppended))
    else (true, None)
  }

  class ConnectionInfoBuilder {
    var info: ConnectionInfo
    var errs: seq<Error>

    constructor ()
      ensures info == ZeroInfo && errs == []
    {
      info := ZeroInfo;
      errs := [];
    }

    /** Reads PG_HOST and PG_PORT; the port is stored even when it does not parse. */
    method WithHost(env: map<string, string>) returns (b: ConnectionInfoBuilder)
      modifies this
      ensures b == this
      ensures errs == old(errs) + HostErrors(env)
      ensures var host, port := Getenv(env, "PG_HOST"), Getenv(env, "PG_PORT");
              info == old(info).(host := if host != "" then host else old(info).host,
                                 port := if port != "" then Atoi(port).0 else old(info).port)
    {
      var pgHost := Getenv(env, "PG_HOST");
      if pgHost != "" {
        info := info.(host := pgHost);
      } else {
        errs := errs + [NoHost];
      }
      var pgPort := Getenv(env, "PG_PORT");
      if pgPort != "" {
        var (pgPortInt, err) := Atoi(pgPort);
        if err.Some? {
          errs := errs + [err.value];
        }
        info := info.(port := pgPortInt);
      } else {
        errs := errs + [NoPort];
      }
      b := this;
    }

    /** Reads PG_USER and PG_PASS, reporting the user before the password. */
    method WithUserAndPass(env: map<string, string>) returns (b: ConnectionInfoBuilder)
      modifies this
      ensures b == this
      ensures errs == old(errs) + UserAndPassErrors(env)
      ensures var user, pass := Getenv(env, "PG_USER"), Getenv(env, "PG_PASS");
              info == old(info).(user := if user != "" then user else old(info).user,
                                 pass := if pass != "" then pass else old(info).pass)
    {
      var pgUser := Getenv(env, "PG_USER");
      if pgUser != "" {
        info := info.(user := pgUser);
      } else {
        errs := errs + [NoUser];
      }
      var pgPass := Getenv(env, "PG_PASS");
      if pgPass != "" {
        info := info.(pass := pgPass);
      } else {
        errs := errs + [NoPassword];
      }
      b := this;
    }

    /** Reads PG_DBNAME. */
    method WithDBName(env: map<string, string>) returns (b: ConnectionInfoBuilder)
      modifies this
      ensures b == this
      ensures errs == old(errs) + DBNameErrors(env)
      ensures var db := Getenv(env, "PG_DBNAME");
              info == old(info).(dbName := if db != "" then db else old(info).dbName)
    {
      var pgDBName := Getenv(env, "PG_DBNAME");
      if pgDBName != "" {
        info := info.(dbName := pgDBName);
      } else {
        errs := errs + [NoDBName];
      }
      b := this;
    }

    /** The accumulated settings, or the zero settings and the first error recorded. */
    method Build() returns (r: ConnectionInfo, err: Option<Error>)
      ensures errs == [] ==> r == info && err == None
      ensures errs != [] ==> r == ZeroInfo && err == Some(errs[0])
    {
      if |errs| > 0 {
        return ZeroInfo, Some(errs[0]);
      }
      return info, None;
    }
  }

  /**
   * Builds the settings with the chain host, user and password, database
   * name, then connects. `connectErr` is the outcome of connecting to and
   * pinging the server.
   */
  method NewPostgresqlRepository(env: map<string, string>, connectErr: Option<Error>)
    returns (repo: Option<PostgresRepository>, err: Option<Error>)
    ensures err == OpenError(env, connectErr)
    ensures err.None? ==> repo == Some(PostgresRepository(EnvInfo(env)))
    ensures err.Some? ==> repo == None
  {
    var pcib := new ConnectionInfoBuilder();
    var b1 := pcib.WithHost(env);
    var b2 := b1.WithUserAndPass(env);
    var b3 := b2.WithDBName(env);
    var connectionInfo, e := b3.Build();
    OpenErrorIsFirstConfigError(env, connectErr);
    if e.Some? {
      return None, e;
    }
    if connectErr.Some? {
      return None, connectErr;
    }
    return Some(PostgresRepository(connectionInfo)), None;
  }
}
