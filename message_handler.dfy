/** The callback the exchange clients feed: WebSocketMessageHandler.handlePriceUpdate(exchange, bid, ask). */
module WebSocketMessageHandler {
  datatype PriceUpdate = PriceUpdate(exchange: string, bestBid: real, bestAsk: real)
}
