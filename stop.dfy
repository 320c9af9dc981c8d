/** stop: which stop command goes to which characteristic, by device
    family. The write itself is left to the caller. */
module Stop {

  /** The stop commands; their byte values live in the command tables. */
  datatype Command = MotherboardStopWeightMeas | ProgressorStopWeightMeas

  /** One call of write(board, service, characteristic, command, delay). */
  datatype Write = Write(service: string, characteristic: string, command: Command, delay: nat)

  const MotherboardStop: Write := Write("uart", "tx", MotherboardStopWeightMeas, 0)
  const ProgressorStop: Write := Write("progressor", "tx", ProgressorStopWeightMeas, 0)

  /** The writes stop issues, in order. `connected` is what the board's
      isConnected() answers; `isMotherboard` and `isProgressor` what the
      family checks answer. The two checks are independent. */
  function Stop(connected: bool, isMotherboard: bool, isProgressor: bool): (writes: seq<Write>)
    ensures !connected ==> writes == []
    ensures forall w :: w in writes ==> w.characteristic == "tx" && w.delay == 0
    ensures connected && isMotherboard ==> writes != [] && writes[0] == MotherboardStop
  {
    if !connected then []
    else
      (if isMotherboard then [MotherboardStop] else [])
      + (if isProgressor then [ProgressorStop] else [])
  }

  /** A disconnected board gets nothing, and no board gets more than one
      write per family. */
  lemma StopBounds(connected: bool, isMotherboard: bool, isProgressor: bool)
    ensures !connected ==> Stop(connected, isMotherboard, isProgressor) == []
    ensures |Stop(connected, isMotherboard, isProgressor)| <= 2
    ensures |Stop(connected, isMotherboard, isProgressor)|
         == if connected then (if isMotherboard then 1 else 0) + (if isProgressor then 1 else 0) else 0
  {
  }

  /** The Motherboard stop is sent iff the board is connected and a
      Motherboard, to uart/tx without delay; likewise the Progressor stop to
      progressor/tx; and a board that is both gets the Motherboard's first. */
  lemma StopTargets(connected: bool, isMotherboard: bool, isProgressor: bool)
    ensures var w := Stop(connected, isMotherboard, isProgressor);
            && (MotherboardStop in w <==> connected && isMotherboard)
            && (ProgressorStop in w <==> connected && isProgressor)
            && (forall x :: x in w ==> x.characteristic == "tx" && x.delay == 0)
            && (connected && isMotherboard && isProgressor ==> w == [MotherboardStop, ProgressorStop])
            && (connected && !isMotherboard && !isProgressor ==> w == [])
  {
  }
}
