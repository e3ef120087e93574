/** A session with the dashboard's default configuration: 10000 capital, 1% risk
    per trade, 3% loss ceiling. Two losing trades of 150 and 160 close the gate. */
module DefaultSession {
  import opened RiskManagement

  method DefaultSessionExample() returns (size: real, canTradeAfter: bool, capitalAfter: real)
    ensures size == 50.0
    ensures !canTradeAfter
    ensures capitalAfter == 9690.0
  {
    var risk := new RiskManager(10000.0, 1.0, 3.0);
    assert risk.maxDailyLoss == 300.0;
    size := risk.CalculatePositionSize(100.0, 98.0);
    risk.UpdatePnl(-150.0);
    assert risk.CanTrade();
    risk.UpdatePnl(-160.0);
    canTradeAfter := risk.CanTrade();
    capitalAfter := risk.capital;
  }
}
