/** Types shared by every module: options, bytes, request identifiers and the
    payload of a proof request. */
module Base {

  datatype Option<+T> = None | Some(value: T)

  newtype byte = x: int | 0 <= x < 256

  type Bytes = seq<byte>

  type Bytes16 = b: Bytes | |b| == 16 witness seq(16, _ => 0 as byte)

  /** A request identifier: sixteen raw bytes. */
  datatype Uuid = Uuid(bytes: Bytes16)

  datatype Circuit = Circuit(name: string, inputs: string)

  /** A proof request; the ten variants of the source differ in `proofType`,
      which is kept as an opaque number. */
  datatype ProofRequest = ProofRequest(
    proofType: int,
    circuit: Circuit,
    endpointType: Option<string>,
    endpoint: Option<string>)

  datatype SubmitRequest = SubmitRequest(onchain: bool, request: ProofRequest)

  /** The parsed contents of `proof.json` and of `public_inputs.json`. */
  datatype Proof = Proof(piA: seq<string>, piB: seq<seq<string>>, piC: seq<string>, protocol: string)

  type PublicInputs = seq<string>

  /** The contents of a witness file. */
  datatype Wtns = Wtns(bytes: Bytes)
}
