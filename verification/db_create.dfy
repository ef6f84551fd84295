/** `db_create`: a DbCreate term naming the database. */
module DbCreateCmd {
  import opened Wrappers
  import opened Json
  import opened Reql

  /** `new(db_name)`: one argument, the name as a JSON string; no options, no parent. */
  function New(dbName: string): (c: TermCmd)
    ensures c.typ == DbCreate && c.opts == None
    ensures Serialise(c) == JArr([JInt(57), JArr([JStr(dbName)])])
    ensures Decode(Serialise(c)) == Some(c)
  {
    var c := WithArg(Reql.New(DbCreate), FromJson(JStr(dbName)));
    WireForm(c, [JStr(dbName)]);
    SerialiseRoundTrip(c);
    assert Normalize(c).args == c.args;
    c
  }
}
