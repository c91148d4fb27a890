/**
 * `GAClientNoOpImpl`: a client that accepts every hit and does nothing. Its
 * constructor is private and its one instance is shared, so the type has a
 * single value.
 */
module NoOp {
  import opened Common
  import opened Hits

  datatype GAClientNoOpImpl = Instance
  {
    function Event(data: GAEvent): (r: Outcome)
      ensures r == Pass
    {
      Pass
    }

    function AppView(data: GAAppView): (r: Outcome)
      ensures r == Pass
    {
      Pass
    }

    function Item(data: GAItem): (r: Outcome)
      ensures r == Pass
    {
      Pass
    }

    function Timing(data: GATiming): (r: Outcome)
      ensures r == Pass
    {
      Pass
    }
  }

  /** `GAClientNoOpImpl.instance`. */
  const INSTANCE: GAClientNoOpImpl := Instance

  /** Every no-op client is the shared instance. */
  lemma OnlyInstance(c: GAClientNoOpImpl)
    ensures c == INSTANCE
  {
  }
}
