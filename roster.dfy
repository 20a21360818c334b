/** The physician table and the scenario inputs the targeting page reads. */
module Roster {

  datatype Option<T> = None | Some(value: T)

  /** The three payers whose share columns the table carries. */
  datatype Payer = UHC | Aetna | Cigna

  /** One row of the physician table: name, specialty, prescription volume
      ("TRx Volume"), the three payer shares, the segment label and the zip code. */
  datatype Physician = Physician(
    name: string,
    specialty: string,
    volume: nat,
    uhcShare: real,
    aetnaShare: real,
    cignaShare: real,
    segment: string,
    zip: string)

  /** The share column of `payer` ("UHC Share %", "Aetna Share %", "Cigna Share %"). */
  function ShareOf(p: Physician, payer: Payer): real {
    match payer
    case UHC => p.uhcShare
    case Aetna => p.aetnaShare
    case Cigna => p.cignaShare
  }

  /** The scenario inputs: the formulary-win option text, the zip codes picked
      in the multiselect (empty means no geographic restriction), the call
      capacity and the strategy option text. */
  datatype Config = Config(
    formularyWin: string,
    selectedZips: seq<string>,
    callCapacity: nat,
    strategy: string)
}
