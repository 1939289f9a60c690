/**
 * The dashboard page (src/pages/Dashboard.tsx): the supplied and borrowed
 * totals over the user's positions and which view of them the page shows.
 */
module Dashboard {
  import opened Reduce
  import opened EthereumUtils

  /** The "Total Supplied" card: the stored values of the deposits summed from 0. */
  function TotalSupplied(positions: UserPositions): (total: real)
    ensures positions.deposits == [] ==> total == 0.0
    ensures |positions.deposits| == 1 ==> total == positions.deposits[0].value
  {
    SumOf(positions.deposits, (d: DepositPosition) => d.value)
  }

  /** The "Total Borrowed" card: the stored values of the borrows summed from 0. */
  function TotalBorrowed(positions: UserPositions): (total: real)
    ensures positions.borrows == [] ==> total == 0.0
    ensures |positions.borrows| == 1 ==> total == positions.borrows[0].value
  {
    SumOf(positions.borrows, (b: BorrowPosition) => b.value)
  }

  /**
   * The totals read only the stored `value` of each position: positions that
   * agree on their values, whatever their amounts, tokens or prices, give the
   * same totals.
   */
  lemma TotalsReadOnlyValues(p: UserPositions, q: UserPositions)
    requires |p.deposits| == |q.deposits| && |p.borrows| == |q.borrows|
    requires forall i :: 0 <= i < |p.deposits| ==> p.deposits[i].value == q.deposits[i].value
    requires forall i :: 0 <= i < |p.borrows| ==> p.borrows[i].value == q.borrows[i].value
    ensures TotalSupplied(p) == TotalSupplied(q)
    ensures TotalBorrowed(p) == TotalBorrowed(q)
  {
    var dv := (d: DepositPosition) => d.value;
    var bv := (b: BorrowPosition) => b.value;
    SumOfCongruent(p.deposits, dv, q.deposits, dv);
    SumOfCongruent(p.borrows, bv, q.borrows, bv);
  }

  /** Below the summary cards: an empty-state prompt, or the supplied and borrowed sections that have entries. */
  datatype PositionsView = NoPositions | Sections(showSupplied: bool, showBorrowed: bool)

  /** The page: a connect prompt, or the summary cards with the positions view. */
  datatype DashboardView =
    | ConnectPrompt
    | Overview(totalSupplied: real, totalBorrowed: real, positions: PositionsView)

  /** What the page renders for the wallet's connection state and the positions. */
  function Render(isConnected: bool, positions: UserPositions): (view: DashboardView)
    ensures view.ConnectPrompt? <==> !isConnected
    ensures view.Overview? ==> view.totalSupplied == TotalSupplied(positions) && view.totalBorrowed == TotalBorrowed(positions)
  {
    if !isConnected then ConnectPrompt
    else
      var body :=
        if |positions.deposits| == 0 && |positions.borrows| == 0 then NoPositions
        else Sections(|positions.deposits| > 0, |positions.borrows| > 0);
      Overview(TotalSupplied(positions), TotalBorrowed(positions), body)
  }

  /**
   * Disconnected, the prompt shows whatever the positions; connected, the empty
   * state shows exactly when both lists are empty, and each section exactly
   * when its own list has entries.
   */
  lemma RenderSelection(isConnected: bool, positions: UserPositions)
    ensures Render(isConnected, positions) == ConnectPrompt <==> !isConnected
    ensures isConnected ==>
              (Render(isConnected, positions).positions == NoPositions
               <==> positions.deposits == [] && positions.borrows == [])
    ensures isConnected && Render(isConnected, positions).positions.Sections? ==>
              (Render(isConnected, positions).positions.showSupplied <==> positions.deposits != []) &&
              (Render(isConnected, positions).positions.showBorrowed <==> positions.borrows != [])
    ensures isConnected ==>
              Render(isConnected, positions).totalSupplied == TotalSupplied(positions) &&
              Render(isConnected, positions).totalBorrowed == TotalBorrowed(positions)
  {
  }

  /** For the hard-coded positions the page shows $25,000 supplied and $5,000 borrowed. */
  lemma MockDashboardTotals()
    ensures TotalSupplied(MockUserPositions) == 25000.0
    ensures TotalBorrowed(MockUserPositions) == 5000.0
  {
    var ds := MockUserPositions.deposits;
    var bs := MockUserPositions.borrows;
    assert ds[..1][..0] == [] && bs[..0] == [];
    assert SumOf(ds[..1], (d: DepositPosition) => d.value) == 15000.0;
  }
}
