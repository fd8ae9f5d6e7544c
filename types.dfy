/** The value types of the voting wizard (types.ts) and the routes its pages navigate to. */
module Types {

  datatype Option<+T> = None | Some(value: T)

  /** A `Date` (or `Date.now()`) is kept as milliseconds since the epoch and treated as opaque. */
  type Timestamp = nat

  datatype User = User(id: string, username: string, isAuthenticated: bool)

  /** Every identification field is optional; the pages always fill the three ID numbers and add the phone number after the OTP check. */
  datatype VoterData = VoterData(
    aadharNumber: Option<string>,
    panNumber: Option<string>,
    voterIdNumber: Option<string>,
    phoneNumber: Option<string>,
    isVerified: bool)

  datatype BiometricData = BiometricData(faceVerified: bool, retinaVerified: bool, timestamp: Timestamp)

  datatype Candidate = Candidate(id: string, name: string, party: string, symbol: string)

  datatype Vote = Vote(candidateId: string, timestamp: Timestamp, voteId: string, isConfirmed: bool)

  datatype PrivacyCheck = PrivacyCheck(isAlone: bool, cameraAccess: bool, verified: bool)

  /** Language codes 'en' and 'hi'. */
  datatype LangCode = En | Hi

  datatype Language = Language(code: LangCode, name: string)

  /** The routes '/', '/voter-login', '/biometric-scan', '/voting', '/confirmation' and '/receipt'. */
  datatype Route = Home | VoterLoginRoute | BiometricScanRoute | VotingRoute | ConfirmationRoute | ReceiptRoute
}
