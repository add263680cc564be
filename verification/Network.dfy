/** The wire types shared by the Hierophant and its contemplants: proof requests,
    progress reports and the status a contemplant keeps for one proof. */
module Network {

  datatype Option<+T> = None | Some(value: T)

  // Request ids are 256-bit random words; the model only ever compares them.
  type Id = nat
  type Byte = b: int | 0 <= b < 256
  type Bytes = seq<Byte>

  datatype VmKind = Sp1 | Risc0 | OpenVm

  datatype Sp1Mode = UnspecifiedMode | Core | Compressed | Plonk | Sp1Groth16
  datatype Risc0Mode = Composite | Succinct | Groth16
  datatype OpenVmMode = App | Stark | Evm

  // `payload` stands for the program and input bytes, which no routing decision reads.
  datatype Request =
    | Sp1Request(id: Id, sp1Mode: Sp1Mode, payload: Bytes)
    | Risc0Request(id: Id, risc0Mode: Risc0Mode, wrapOf: Option<Bytes>, payload: Bytes)
    | OpenVmRequest(id: Id, openVmMode: OpenVmMode, payload: Bytes)
  {
    function Vm(): VmKind {
      match this
      case Sp1Request(_, _, _) => Sp1
      case Risc0Request(_, _, _, _) => Risc0
      case OpenVmRequest(_, _, _) => OpenVm
    }

    predicate NeedsGroth16() {
      Risc0Request? && (risc0Mode == Groth16 || wrapOf.Some?)
    }

    predicate NeedsOpenVmEvm() {
      OpenVmRequest? && openVmMode == Evm
    }

    function ModeName(): string {
      match this
      case Sp1Request(_, m, _) =>
        (match m
         case UnspecifiedMode => "UNSPECIFIED_PROOF_MODE"
         case Core => "CORE"
         case Compressed => "COMPRESSED"
         case Plonk => "PLONK"
         case Sp1Groth16 => "GROTH16")
      case Risc0Request(_, m, _, _) =>
        (match m case Composite => "COMPOSITE" case Succinct => "SUCCINCT" case Groth16 => "GROTH16")
      case OpenVmRequest(_, m, _) =>
        (match m case App => "APP" case Stark => "STARK" case Evm => "EVM")
    }
  }

  /** Requests for different modes of one virtual machine have different mode names. */
  lemma ModeNamesDiffer(r: Request, q: Request)
    requires r.Vm() == q.Vm() && r.ModeName() == q.ModeName()
    ensures r.Sp1Request? ==> q.Sp1Request? && r.sp1Mode == q.sp1Mode
    ensures r.Risc0Request? ==> q.Risc0Request? && r.risc0Mode == q.risc0Mode
    ensures r.OpenVmRequest? ==> q.OpenVmRequest? && r.openVmMode == q.openVmMode
  {
  }

  datatype EstimateReason = Executing | NoHistory
  datatype Progress = Estimating(reason: EstimateReason) | Proving(cycles: nat, estimateSecs: nat) | Done

  // Estimating (0 or 1) < Proving (2) < Done (3); the payload of Proving is not ordered.
  function Rank(p: Progress): nat {
    match p
    case Estimating(Executing) => 0
    case Estimating(NoHistory) => 1
    case Proving(_, _) => 2
    case Done => 3
  }

  // The order of an optional progress: nothing reported lies below everything.
  function OptionRank(p: Option<Progress>): nat {
    match p case None => 0 case Some(q) => Rank(q) + 1
  }

  // Protobuf codes of ExecutionStatus; a status travels as a plain 32-bit integer.
  const UNSPECIFIED_EXECUTION := 0
  const UNEXECUTED := 1
  const EXECUTED := 2
  const UNEXECUTABLE := 3

  // What a contemplant stores and reports about one proof.
  datatype Status = Status(execution: int, proof: Option<Bytes>, progress: Option<Progress>)

  const Unexecuted := Status(UNEXECUTED, None, None)
  const DefaultStatus := Status(UNEXECUTABLE, None, None)

  // Takes the higher progress; on equal rank the newer report wins.
  function ProgressUpdated(st: Status, update: Option<Progress>): Status {
    st.(progress :=
      match (st.progress, update)
      case (Some(p), Some(q)) => Some(if Rank(q) >= Rank(p) then q else p)
      case (Some(p), None) => Some(p)
      case (None, q) => q)
  }

  // ASCII letters in lower case.
  function Lower(c: char): char {
    if 'A' <= c <= 'Z' then c - 'A' + 'a' else c
  }

  function LowerAll(s: string): (r: string)
    ensures |r| == |s| && forall i :: 0 <= i < |s| ==> r[i] == Lower(s[i])
  {
    if s == "" then "" else [Lower(s[0])] + LowerAll(s[1..])
  }
}
