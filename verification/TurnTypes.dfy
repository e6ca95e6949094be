/**
  The values the turn protocol exchanges (lib/TurnGateway.js, lib/TurnStore.js).
  SHA-256 identities are modelled by the tuple they digest, and a UUID token by a number.
 */
module TurnTypes {
  import opened Wrappers
  import T = Transcript

  type Token = nat
  type Response = string

  datatype Json = JNull | JText(text: string) | JNumber(number: nat) | JCounts(counts: map<string, int>)

  datatype Binding = Binding(provider: string, applicationId: string, sessionId: string,
                             serviceCode: string, phoneNumber: string, networkCode: string)

  /** A normalised request. `input` and `position` are derived from the cumulative transcript. */
  datatype Turn = Turn(sessionKey: string, binding: Binding, transcript: string) {
    function Position(): nat { T.Position(transcript) }
    function Input(): string { T.LatestInput(transcript) }
    function Identity(): Fingerprint { Fingerprint(sessionKey, Position(), transcript) }
  }

  datatype Fingerprint = Fingerprint(sessionKey: string, position: nat, transcript: string)

  datatype Receipt = Receipt(fingerprint: Fingerprint, position: nat, response: Response)

  datatype Kind = Normal | Recovery

  datatype Pending = Pending(token: Token, fingerprint: Fingerprint, position: nat, revision: nat,
                             kind: Kind, deadlineAt: Option<int>)

  datatype Ledger = Ledger(revision: nat, binding: Binding, transcript: Option<string>,
                           receipts: seq<Receipt>, completed: bool, pending: Option<Pending>)

  /** The runtime snapshot a commit installs: state, data and navigation history. */
  datatype Session = Session(state: Option<string>, data: map<string, Json>, history: seq<string>)

  const EMPTY_SESSION := Session(None, map[], [])

  predicate IsEnd(response: Response) { "END " <= response }

  /** A receipt ledger before its first claim. */
  function FreshLedger(binding: Binding): Ledger { Ledger(0, binding, None, [], false, None) }

  /** What a claim and a commit leave unchanged within one revision: everything but the pending owner. */
  function Core(ledger: Ledger): Ledger { ledger.(pending := None) }
}
