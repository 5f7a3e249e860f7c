/** FundingCarryStrategy: on each funding event of the futures leg, one target for the spot leg and
    its opposite for the futures leg. */
module FundingCarry {
  import opened Portfolio
  import opened RiskGate

  datatype Config = Config(futures: nat, spot: nat, targetQty: real, entryRate: real, exitRate: real)

  function Target(c: Config, positions: seq<real>, rate: real): real
    requires c.spot < |positions|
  {
    if rate >= c.entryRate then c.targetQty
    else if rate <= c.exitRate then 0.0
    else positions[c.spot]
  }

  predicate Acts(c: Config, e: MarketEvent) {
    e.payload.Funding? && e.slot == c.futures
  }

  function Intents(c: Config, positions: seq<real>, e: MarketEvent): seq<Intent>
    requires c.spot < |positions|
  {
    if !Acts(c, e) then []
    else
      var target := Target(c, positions, e.payload.rate);
      [Intent(c.spot, target), Intent(c.futures, -target)]
  }

  class FundingCarryStrategy {
    const config: Config
    const portfolio: Portfolio
    var buffer: seq<Intent>

    constructor (config: Config, portfolio: Portfolio)
      ensures this.config == config && this.portfolio == portfolio
    {
      this.config, this.portfolio, buffer := config, portfolio, [];
    }

    method OnEvent(e: MarketEvent) returns (intents: seq<Intent>)
      requires config.spot < |portfolio.positions|
      modifies this
      ensures intents == Intents(config, portfolio.positions, e)
    {
      if !e.payload.Funding? || e.slot != config.futures {
        return [];
      }
      var target := if e.payload.rate >= config.entryRate then config.targetQty
                    else if e.payload.rate <= config.exitRate then 0.0
                    else portfolio.positions[config.spot];
      buffer := [];
      buffer := buffer + [Intent(config.spot, target)];
      buffer := buffer + [Intent(config.futures, -target)];
      intents := buffer;
    }
  }
}
