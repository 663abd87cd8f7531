// The protocol constants of mdp.h, and the messages the broker puts on its socket.

module Mdp {
  import opened Bytes
  import opened Frames

  const MDPC_CLIENT: Frame := [77, 68, 80, 67, 48, 49]  // "MDPC01"
  const MDPW_WORKER: Frame := [77, 68, 80, 87, 48, 49]  // "MDPW01"

  const READY: Frame := [1]
  const REQUEST: Frame := [2]
  const REPLY: Frame := [3]
  const HEARTBEAT: Frame := [4]
  const DISCONNECT: Frame := [5]

  const MMI_SERVICE: Frame := [109, 109, 105, 46, 115, 101, 114, 118, 105, 99, 101]  // "mmi.service"
  const CODE_200: Frame := [50, 48, 48]
  const CODE_404: Frame := [52, 48, 52]
  const CODE_501: Frame := [53, 48, 49]

  const HEARTBEAT_LIVENESS := 3
  const HEARTBEAT_INTERVAL := 2500
  const HEARTBEAT_EXPIRY := HEARTBEAT_INTERVAL * HEARTBEAT_LIVENESS

  // What the broker sends. The service of a request is not on the wire; it names the queue
  // the request came from.
  datatype Out =
    | Request(worker: Frame, service: Frame, payload: Message)
    | Heartbeat(worker: Frame)
    | Disconnect(worker: Frame)
    | Answer(client: Frame, service: Frame, payload: Message)

  // worker_send(worker, command, "", payload): the parts handed to zmsg::send.
  function WorkerSend(worker: Frame, command: Frame, payload: Message): Message {
    Wrap(PushFront(PushFront(payload, command), MDPW_WORKER), worker, Some([]))
  }

  // The reply rewrapped for the client, with the protocol header and the service name.
  function ClientSend(client: Frame, service: Frame, payload: Message): Message {
    Wrap(Wrap(payload, MDPC_CLIENT, Some(service)), client, Some([]))
  }

  function Encode(o: Out): Message {
    match o
    case Request(w, _, payload) => WorkerSend(w, REQUEST, payload)
    case Heartbeat(w) => WorkerSend(w, HEARTBEAT, [])
    case Disconnect(w) => WorkerSend(w, DISCONNECT, [])
    case Answer(c, s, payload) => ClientSend(c, s, payload)
  }

  lemma WorkerSendFrames(worker: Frame, command: Frame, payload: Message)
    ensures WorkerSend(worker, command, payload)
            == [CStr(worker), [], CStr(MDPW_WORKER), CStr(command)] + payload
  {
    Pushed4(payload, worker, [], MDPW_WORKER, command);
  }

  lemma ClientSendFrames(client: Frame, service: Frame, payload: Message)
    ensures ClientSend(client, service, payload)
            == [CStr(client), [], CStr(MDPC_CLIENT), CStr(service)] + payload
  {
    Pushed4(payload, client, [], MDPC_CLIENT, service);
  }

  // The four messages byte by byte, as they go to the address that comes first.
  lemma EncodedFrames(o: Out)
    ensures match o
            case Request(w, _, payload) => Encode(o) == [CStr(w), [], [77, 68, 80, 87, 48, 49], [2]] + payload
            case Heartbeat(w) => Encode(o) == [CStr(w), [], [77, 68, 80, 87, 48, 49], [4]]
            case Disconnect(w) => Encode(o) == [CStr(w), [], [77, 68, 80, 87, 48, 49], [5]]
            case Answer(c, s, payload) => Encode(o) == [CStr(c), [], [77, 68, 80, 67, 48, 49], CStr(s)] + payload
  {
    assert CStr(MDPW_WORKER) == [77, 68, 80, 87, 48, 49] && CStr(MDPC_CLIENT) == [77, 68, 80, 67, 48, 49];
    match o
    case Request(w, _, payload) => WorkerSendFrames(w, REQUEST, payload);
    case Heartbeat(w) => WorkerSendEmpty(w, HEARTBEAT);
    case Disconnect(w) => WorkerSendEmpty(w, DISCONNECT);
    case Answer(c, s, payload) => ClientSendFrames(c, s, payload);
  }

  lemma WorkerSendEmpty(worker: Frame, command: Frame)
    ensures WorkerSend(worker, command, []) == [CStr(worker), [], CStr(MDPW_WORKER), CStr(command)]
  {
    WorkerSendFrames(worker, command, []);
  }

  lemma WorkerSendIsSendable(worker: Frame, command: Frame, payload: Message)
    ensures Sendable(WorkerSend(worker, command, payload)) <==> Sendable(payload)
  {
    WorkerSendFrames(worker, command, payload);
    SendableAfterStrings([CStr(worker), [], CStr(MDPW_WORKER), CStr(command)], payload);
  }

  lemma ClientSendIsSendable(client: Frame, service: Frame, payload: Message)
    ensures Sendable(ClientSend(client, service, payload)) <==> Sendable(payload)
  {
    ClientSendFrames(client, service, payload);
    SendableAfterStrings([CStr(client), [], CStr(MDPC_CLIENT), CStr(service)], payload);
  }

  // zmsg::send refuses a message of the broker only for what was in it before.
  lemma EncodeIsSendable(o: Out)
    ensures Sendable(Encode(o)) <==> (o.Request? || o.Answer? ==> Sendable(o.payload))
  {
    match o
    case Request(w, _, payload) => WorkerSendIsSendable(w, REQUEST, payload);
    case Heartbeat(w) => WorkerSendIsSendable(w, HEARTBEAT, []);
    case Disconnect(w) => WorkerSendIsSendable(w, DISCONNECT, []);
    case Answer(c, s, payload) => ClientSendIsSendable(c, s, payload);
  }
}
