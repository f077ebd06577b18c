/**
 * Wire-level vocabulary of the storyboard WebSocket log listener: the records
 * it relays, the envelopes `{type, result, data}` it exchanges with viewer
 * clients, and the message-type tags of its protocol.
 */
module Protocol {

  datatype Option<+T> = None | Some(value: T)

  /** A log record as produced upstream; the listener relays it unread. */
  datatype Record = Record(src: string, level: int, msg: string)

  /**
   * The `data` field of an inbound message. JavaScript lets it be anything;
   * the listener only distinguishes a missing value, a plain text value (a
   * filter specification), a credentials object and a list of records.
   */
  datatype Data =
    | Undefined
    | Text(text: string)
    | Credentials(login: string, password: string)
    | RecordList(records: seq<Record>)

  /** An inbound `MSG` from a client: `{type, data}`. */
  datatype Msg = Msg(msgType: string, data: Data)

  /** The `result` field of a reply: `'SUCCESS'` or `'ERROR'`. */
  datatype Outcome = Success | Error

  /** The `data` field of an outbound envelope. */
  datatype Payload =
    | NoPayload
    | LoginData(login: Option<string>, bufferedRecords: seq<Record>)
    | LoginRequiredData(fLoginRequired: bool)
    | FilterData(filter: Data)
    | RecordsData(records: seq<Record>)

  /** An outbound `MSG`: `{type, result?, data?}`. */
  datatype Envelope = Envelope(msgType: string, result: Option<Outcome>, data: Payload)

  // Inbound message types
  const LoginRequestType := "LOGIN_REQUEST"
  const LogOutType := "LOG_OUT"
  const LoginRequiredQuestionType := "LOGIN_REQUIRED_QUESTION"
  const GetServerFilterType := "GET_SERVER_FILTER"
  const SetServerFilterType := "SET_SERVER_FILTER"
  const UploadRecordsType := "UPLOAD_RECORDS"

  // Outbound message types
  const LoginResponseType := "LOGIN_RESPONSE"
  const LoginRequiredResponseType := "LOGIN_REQUIRED_RESPONSE"
  const ServerFilterType := "SERVER_FILTER"
  const RecordsType := "RECORDS"

  /** The single socket.io room whose members receive broadcasts. */
  const SocketRoom := "authenticated"

  /** The message types the router has a case for; every other type is ignored. */
  predicate IsKnownType(t: string)
  {
    t in {LoginRequestType, LogOutType, LoginRequiredQuestionType,
          GetServerFilterType, SetServerFilterType, UploadRecordsType}
  }

  /**
   * What the router needs of a message before reading its `data`: a login
   * request has some `data` to destructure, and an upload carries a list of
   * records to iterate. Without these the handler throws.
   */
  predicate WellFormed(m: Msg)
  {
    && (m.msgType == LoginRequestType ==> !m.data.Undefined?)
    && (m.msgType == UploadRecordsType ==> m.data.RecordList?)
  }

  /**
   * `const { login } = credentials`: the `login` property of the data, which
   * is `undefined` (here `None`) unless the data is a credentials object.
   */
  function LoginOf(credentials: Data): (login: Option<string>)
    ensures login.Some? <==> credentials.Credentials?
    ensures credentials.Credentials? ==> login.value == credentials.login
  {
    if credentials.Credentials? then Some(credentials.login) else None
  }
}
