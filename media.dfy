/**
 * The media engine as the signalling core sees it: opaque handles with
 * engine-assigned ids, and the calls the core makes on them.
 */
module Media {

  /** Engine-assigned id of a worker, router, transport, producer or consumer. */
  type Id = nat

  /** Identity of one signalling connection (a WebSocket). */
  type Socket = nat

  /**
   * `Math.floor(Math.random() * 0xffffffff)` lies in [0, 0xffffffff): one short
   * of the 32-bit SSRC field of section 5.1 of RFC 3550.
   */
  const SSRC_DRAW_BOUND: int := 0xffffffff

  type Ssrc = n: int | 0 <= n < SSRC_DRAW_BOUND

  /** A WebRTC transport; `socket` is its `appData.socket`. */
  datatype Transport = Transport(id: Id, socket: Socket, connected: bool)

  /** A producer (a published track); `appointment` is the tag the core puts on it. */
  datatype Producer = Producer(id: Id, kind: string, appointment: string, ssrc: Ssrc)

  /** A consumer (a subscribed track) of the producer `producerId`. */
  datatype Consumer = Consumer(id: Id, producerId: Id, kind: string)

  /** One call from the core into the engine, in the order it is issued. */
  datatype EngineCall =
    | CloseProducer(id: Id)
    | CloseConsumer(id: Id)
    | CloseTransport(id: Id)
    | CloseRouter(id: Id)
    | CloseWorker(id: Id)
    | PauseProducer(id: Id)
    | ResumeProducer(id: Id)
    | ConnectTransport(id: Id)
}
