// The symbol <-> text maps that several components repeat: the exchange
// pair names (order executor, REST client, market-data fetcher), the
// display names and the command-line parser of src/main.cpp.
module Symbols {
  /** `symbol_to_binance`: the exchange's pair name, BTCUSDT for any value
      outside the enum. */
  function ExchangeSymbol(symbol: int): (r: string)
    ensures r == "BTCUSDT" || r == "ETHUSDT" || r == "BTCETH"
    ensures !(0 <= symbol < 3) ==> r == "BTCUSDT"
  {
    if symbol == 1 then "ETHUSDT"
    else if symbol == 2 then "BTCETH"
    else "BTCUSDT"
  }

  /** `string_to_symbol`: both spellings of each pair, SYMBOL_BTC_USDT for
      anything else. */
  function SymbolOf(text: string): (r: int)
    ensures 0 <= r < 3
    ensures text != "ETHUSDT" && text != "ETH_USDT" && text != "BTCETH" && text != "BTC_ETH" ==> r == 0
  {
    if text == "BTCUSDT" || text == "BTC_USDT" then 0
    else if text == "ETHUSDT" || text == "ETH_USDT" then 1
    else if text == "BTCETH" || text == "BTC_ETH" then 2
    else 0
  }

  /** Parsing undoes the exchange map on every pair, and the exchange map
      undoes parsing on every exchange pair name. */
  lemma SymbolOfInvertsExchangeSymbol(symbol: int, text: string)
    ensures 0 <= symbol < 3 ==> SymbolOf(ExchangeSymbol(symbol)) == symbol
    ensures text == "BTCUSDT" || text == "ETHUSDT" || text == "BTCETH" ==>
              ExchangeSymbol(SymbolOf(text)) == text
  {
  }

  /** `symbol_to_string`: the display name, UNKNOWN outside the enum. */
  function DisplayName(symbol: int): (r: string)
    ensures 0 <= symbol < 3 ==> r == ExchangeSymbol(symbol)[..3] + "/" + ExchangeSymbol(symbol)[3..]
    ensures !(0 <= symbol < 3) <==> r == "UNKNOWN"
  {
    if symbol == 0 then "BTC/USDT"
    else if symbol == 1 then "ETH/USDT"
    else if symbol == 2 then "BTC/ETH"
    else "UNKNOWN"
  }

  /** `_get_symbol_name` of the Python strategies: the exchange name for
      codes 0, 1, 2 and UNKNOWN otherwise. */
  function PySymbolName(code: int): (r: string)
    ensures 0 <= code < 3 ==> r == ExchangeSymbol(code)
    ensures !(0 <= code < 3) ==> r == "UNKNOWN"
  {
    if code == 0 then "BTCUSDT"
    else if code == 1 then "ETHUSDT"
    else if code == 2 then "BTCETH"
    else "UNKNOWN"
  }

  /** `std::tolower` on one ASCII character. */
  function LowerChar(c: char): (r: char)
    ensures 'A' <= c <= 'Z' ==> 'a' <= r <= 'z'
    ensures !('A' <= c <= 'Z') ==> r == c
  {
    if 'A' <= c <= 'Z' then (c as int - 'A' as int + 'a' as int) as char else c
  }

  function Lower(s: string): (r: string)
    ensures |r| == |s| && forall i :: 0 <= i < |s| ==> r[i] == LowerChar(s[i])
  {
    seq(|s|, i requires 0 <= i < |s| => LowerChar(s[i]))
  }
}
