/**
 * The backend capability the tester drives.  The concrete Postgres
 * repository is foreign code, so a repository here is an oracle: every
 * call is appended to a trace, and whether it succeeds is decided by a
 * fixed function of the calls made before it and of the call itself.
 */
module Repository {

  /** One call on the repository; an insert records the size of its batch. */
  datatype Call =
    | Open
    | Close
    | Ping
    | DropDatabase(name: string)
    | CreateDatabase(name: string)
    | SwitchDatabase(name: string)
    | CreateTable(name: string, fields: seq<string>)
    | TruncateTable(name: string)
    | DropTable(name: string)
    | Insert(table: string, columns: seq<string>, rows: nat)
    | SelectById(table: string, id: int)
    | SelectByConditions(table: string, conditions: string)

  /** What a repository call returns: nil or an error with its message. */
  datatype Outcome = Ok | Fail(message: string)

  /** The backend's behaviour: the answer to a call, given the calls before it. */
  type Oracle = (seq<Call>, Call) -> Outcome

  /** The arguments `NewPostgresDatabaseTesterRepository` is built from. */
  datatype PostgresSettings = PostgresSettings(port: int, host: string, user: string, password: string)

  class DatabaseTesterRepository {
    const settings: PostgresSettings
    const answer: Oracle
    var trace: seq<Call>

    constructor (settings: PostgresSettings, answer: Oracle)
      ensures this.settings == settings && this.answer == answer && trace == []
    {
      this.settings := settings;
      this.answer := answer;
      trace := [];
    }

    /** Records `c` and returns the oracle's answer to it. */
    method Perform(c: Call) returns (o: Outcome)
      modifies this
      ensures o == answer(old(trace), c)
      ensures trace == old(trace) + [c]
    {
      o := answer(trace, c);
      trace := trace + [c];
    }

    method Open() returns (o: Outcome)
      modifies this
      ensures o == answer(old(trace), Call.Open) && trace == old(trace) + [Call.Open]
    {
      o := Perform(Call.Open);
    }

    method Close() returns (o: Outcome)
      modifies this
      ensures o == answer(old(trace), Call.Close) && trace == old(trace) + [Call.Close]
    {
      o := Perform(Call.Close);
    }

    method Ping() returns (o: Outcome)
      modifies this
      ensures o == answer(old(trace), Call.Ping) && trace == old(trace) + [Call.Ping]
    {
      o := Perform(Call.Ping);
    }

    method DropDatabase(name: string) returns (o: Outcome)
      modifies this
      ensures o == answer(old(trace), Call.DropDatabase(name))
      ensures trace == old(trace) + [Call.DropDatabase(name)]
    {
      o := Perform(Call.DropDatabase(name));
    }

    method CreateDatabase(name: string) returns (o: Outcome)
      modifies this
      ensures o == answer(old(trace), Call.CreateDatabase(name))
      ensures trace == old(trace) + [Call.CreateDatabase(name)]
    {
      o := Perform(Call.CreateDatabase(name));
    }

    method SwitchDatabase(name: string) returns (o: Outcome)
      modifies this
      ensures o == answer(old(trace), Call.SwitchDatabase(name))
      ensures trace == old(trace) + [Call.SwitchDatabase(name)]
    {
      o := Perform(Call.SwitchDatabase(name));
    }

    method CreateTable(name: string, fields: seq<string>) returns (o: Outcome)
      modifies this
      ensures o == answer(old(trace), Call.CreateTable(name, fields))
      ensures trace == old(trace) + [Call.CreateTable(name, fields)]
    {
      o := Perform(Call.CreateTable(name, fields));
    }

    method TruncateTable(name: string) returns (o: Outcome)
      modifies this
      ensures o == answer(old(trace), Call.TruncateTable(name))
      ensures trace == old(trace) + [Call.TruncateTable(name)]
    {
      o := Perform(Call.TruncateTable(name));
    }

    method DropTable(name: string) returns (o: Outcome)
      modifies this
      ensures o == answer(old(trace), Call.DropTable(name))
      ensures trace == old(trace) + [Call.DropTable(name)]
    {
      o := Perform(Call.DropTable(name));
    }

    method Insert<R>(table: string, columns: seq<string>, rows: seq<R>) returns (o: Outcome)
      modifies this
      ensures o == answer(old(trace), Call.Insert(table, columns, |rows|))
      ensures trace == old(trace) + [Call.Insert(table, columns, |rows|)]
    {
      o := Perform(Call.Insert(table, columns, |rows|));
    }

    method SelectById(table: string, id: int) returns (o: Outcome)
      modifies this
      ensures o == answer(old(trace), Call.SelectById(table, id))
      ensures trace == old(trace) + [Call.SelectById(table, id)]
    {
      o := Perform(Call.SelectById(table, id));
    }

    method SelectByConditions(table: string, conditions: string) returns (o: Outcome)
      modifies this
      ensures o == answer(old(trace), Call.SelectByConditions(table, conditions))
      ensures trace == old(trace) + [Call.SelectByConditions(table, conditions)]
    {
      o := Perform(Call.SelectByConditions(table, conditions));
    }
  }
}
