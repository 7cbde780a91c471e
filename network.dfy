/**
  Definitions shared by every node of the RF24 irrigation network: the
  fixed-width integer ranges of the C++ code, the six pipe addresses, the
  structs that travel over the radio and the pipe-opening calls a node makes.
 */
module Network {

  datatype Option<T> = None | Some(value: T)

  /** `uint8_t`, `uint16_t` and the 32-bit `unsigned long` / `uint32_t`. */
  const U8_RANGE: int := 0x100
  const U16_RANGE: int := 0x1_0000
  const U32_RANGE: int := 0x1_0000_0000

  type uint8 = x: int | 0 <= x < 0x100
  type uint16 = x: int | 0 <= x < 0x1_0000
  type uint32 = x: int | 0 <= x < 0x1_0000_0000

  /** Unsigned 32-bit subtraction `now - since`, as `millis() - timer` computes it. */
  function ElapsedMillis(since: uint32, now: uint32): (d: uint32)
    ensures since <= now ==> d == now - since
    ensures now < since ==> d == now - since + U32_RANGE
  {
    (now - since) % U32_RANGE
  }

  /**
    The six pipe addresses every node agrees on:
    0 base -> valve controller, 1 valve controller -> base,
    2..4 in-ground sensors -> base, 5 base broadcast to the sensors.
   */
  const PIPES: seq<int> := [0xF0F0F0F0D2, 0xF0F0F0F0E1, 0xF0F0F0F0E2, 0xF0F0F0F0E3, 0xF0F0F0F0F1, 0xF0F0F0F0F2]

  /** A pipe number the radio can report (RX_P_NO), 0..5. */
  type PipeNumber = p: int | 0 <= p < 6

  /** `ActuatorCommand`: what the base asks the valve controller to do. */
  datatype ActuatorCommand = ActuatorCommand(status: bool, timer: uint16)

  /**
    `ActuatorData`: the valve controller's report. `waterConsumption` is the
    controller's running total of litres before the cast to `uint16_t`.
   */
  datatype ActuatorData = ActuatorData(waterConsumption: real, reservoirLevel: uint8)

  /** `ContextTag`: one in-ground sensor reading. */
  datatype ContextTag = ContextTag(moisture: int, temperature: real, battery: int)

  /** One call that configures a pipe of the radio. */
  datatype PipeOp =
    | OpenWriting(address: int)
    | OpenReading(number: int, address: int)

}
