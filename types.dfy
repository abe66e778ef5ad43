/**
 * The records and enumerations of types.ts: the strategy, instrument and
 * timeframe selectors, a price point of the simulated series, a trade and
 * the simulation parameters, plus the price-decimals lookup.
 */
module Types {
  import opened Wrappers

  /** SMCStrategy: which detector the driver runs. */
  datatype Strategy = OrderBlock | BreakerBlock | FairValueGap | LiquiditySweep | MarketStructureShift

  /** FinancialInstrument: the closed set of instruments the simulator offers. */
  datatype Instrument = EURUSD | GBPUSD | SPX500 | NASDAQ100 | GOLD | OIL | BTCUSD | ETHUSD

  /** TimeFrame: the bar interval of a price series. */
  datatype TimeFrame = M1 | M5 | M15 | H1 | H4 | D1

  /** The `type` field of a trade: 'LONG' | 'SHORT'. */
  datatype Direction = Long | Short

  /** The `outcome` field of a trade: 'WIN' | 'LOSS' | 'PENDING'. */
  datatype Outcome = Win | Loss | Pending

  /** SimulatedDataPoint: a millisecond timestamp and a scalar price. */
  datatype PricePoint = PricePoint(time: int, price: real)

  /**
   * Trade, without the random `id` and the free-text `explanation`.
   * The optional `exitTime`, `exitPrice` and `profit` fields are Options.
   */
  datatype Trade = Trade(
    entryTime: int,
    entryPrice: real,
    stopLoss: real,
    takeProfit: real,
    direction: Direction,
    outcome: Outcome,
    strategy: Strategy,
    instrument: Instrument,
    timeFrame: TimeFrame,
    exitTime: Option<int>,
    exitPrice: Option<real>,
    profit: Option<real>)

  /** SimulationParams: the configuration a run is started with. */
  datatype SimulationParams = SimulationParams(
    strategy: Strategy,
    instrument: Instrument,
    timeframe: TimeFrame,
    numDataPoints: int)

  /** The two currency pairs, quoted to a hundred-thousandth. */
  predicate IsCurrencyPair(instrument: Instrument) {
    instrument == EURUSD || instrument == GBPUSD
  }

  /**
   * getPriceDecimals: currency pairs show five decimals, every index,
   * commodity and crypto instrument two. The `default` arm of the source
   * switch (3 for a JPY pair, else 4) cannot be reached for the closed
   * enumeration, so no result other than 2 or 5 is possible.
   */
  function PriceDecimals(instrument: Instrument): (d: nat)
    ensures d == 2 || d == 5
    ensures d == 5 <==> IsCurrencyPair(instrument)
  {
    match instrument
    case EURUSD | GBPUSD => 5
    case SPX500 | NASDAQ100 | GOLD | OIL | BTCUSD | ETHUSD => 2
  }

  /** Math.abs on prices. */
  function Abs(x: real): (r: real)
    ensures r >= 0.0 && (r == x || r == -x)
  {
    if x < 0.0 then -x else x
  }

  /** Stop below entry below target for a long, target below entry below stop for a short. */
  predicate Bracketed(direction: Direction, entry: real, stop: real, target: real) {
    || (direction == Long && stop < entry < target)
    || (direction == Short && target < entry < stop)
  }
}
