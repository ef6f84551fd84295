/** `index_drop`: an IndexDrop term naming the index. */
module IndexDropCmd {
  import opened Wrappers
  import opened Json
  import opened Reql

  /** `new(index_name)`: one argument, the name as a JSON string; no options, no parent. */
  function New(indexName: string): (c: TermCmd)
    ensures c.typ == IndexDrop && c.opts == None
    ensures Serialise(c) == JArr([JInt(76), JArr([JStr(indexName)])])
    ensures Decode(Serialise(c)) == Some(c)
  {
    var c := WithArg(Reql.New(IndexDrop), FromJson(JStr(indexName)));
    WireForm(c, [JStr(indexName)]);
    SerialiseRoundTrip(c);
    assert Normalize(c).args == c.args;
    c
  }
}
