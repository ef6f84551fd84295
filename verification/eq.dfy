/** The `Arg` conversion of `eq`: a ready argument passes through, a value is wrapped in an Eq term. */
module EqCmd {
  import opened Json
  import opened Reql

  /** What `eq` accepts: a ready `cmd::Arg<()>`, or any serialisable value. */
  datatype EqInput = ReadyArg(command: Command) | Value(value: Json)

  function Arg(x: EqInput): (r: Command)
    ensures x.ReadyArg? ==> r == x.command
    ensures x.Value? ==> Serialise(r) == JArr([JInt(17), JArr([EncodeDatum(x.value)])])
  {
    match x
    case ReadyArg(c) => c
    case Value(v) =>
      var c := WithArg(Reql.New(Eq), FromJson(v));
      WireForm(c, [EncodeDatum(v)]);
      c
  }
}
