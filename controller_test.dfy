/**
 * `UserControllerTest`: the loopback responder that answers the controller's
 * messages with a success ACK, and the three role-gate scenarios on
 * `/api/user/insert`.
 */
module UserControllerTest {
  import opened Wrappers
  import opened Entities
  import opened Messaging
  import opened Security
  import opened UserServiceController

  const LoopbackMessage := "Ok"

  /** `receiveMessage`: the ACK built for the user read from the incoming message. */
  function ReceiveMessage(u: User): (reply: ACK<Long>)
    ensures reply.success
    ensures reply.message == Some(LoopbackMessage)
    ensures reply.payload == u.id
  {
    ACK(true, Some(LoopbackMessage), u.id)
  }

  /**
   * An INSERT or UPDATE answered by the loopback through a mapper that reads
   * back what it wrote: 200, and the body is the loopback's own reply text
   * when the user had an identifier, the minimal OK otherwise.
   */
  lemma LoopbackAnswersInsertOrUpdate(kind: OperationType, echoed: User, codec: Codec<Long>)
    requires kind == INSERT || kind == UPDATE
    requires RoundTrips(codec, ReceiveMessage(echoed))
    ensures Respond(kind, Replied(codec.writeAck(ReceiveMessage(echoed)).text), codec)
            == if echoed.id.Some? then Response(Ok, Some(codec.writeAck(ReceiveMessage(echoed)).text))
               else Response(Ok, Some(MinimalOkBody))
  {
  }

  const SuperadminAuthority := "ROLE_SUPERADMIN"
  const SystemAdministratorAuthority := "ROLE_SYSTEM_ADMINISTRATOR"

  /** The authority strings the test grants are the ones `hasRole` looks for. */
  lemma TestAuthoritiesAreRoles()
    ensures Authority(SUPERADMIN) == SuperadminAuthority
    ensures Authority(SYSTEM_ADMINISTRATOR) == SystemAdministratorAuthority
  {
    var a := Authority(SYSTEM_ADMINISTRATOR);
    assert |a| == |SystemAdministratorAuthority|;
    forall i | 0 <= i < |a| ensures a[i] == SystemAdministratorAuthority[i] {
      if i < |RolePrefix| { assert a[i] == RolePrefix[i]; }
      else { assert a[i] == RoleName(SYSTEM_ADMINISTRATOR)[i - |RolePrefix|]; }
    }
  }

  /** `insertUserControllerByUnauthorizedUser`: no authorities, denied, nothing sent. */
  lemma InsertByUnauthorizedUser<J>(u: User, send: MessagePayload -> Sent, ids: Codec<Long>, objects: Codec<J>)
    ensures Handle(Manage(Insert(u)), {}, send, ids, objects) == Denied
    ensures Published(Handle(Manage(Insert(u)), {}, send, ids, objects)) == []
  {
  }

  /** `insertUserControllerBySystemAdministrator`: the narrower role alone is denied. */
  lemma InsertBySystemAdministrator<J>(u: User, send: MessagePayload -> Sent, ids: Codec<Long>, objects: Codec<J>)
    ensures Handle(Manage(Insert(u)), {SystemAdministratorAuthority}, send, ids, objects) == Denied
    ensures Published(Handle(Manage(Insert(u)), {SystemAdministratorAuthority}, send, ids, objects)) == []
  {
  }

  /**
   * `insertUserControllerBySuperadmin`: with both roles the request passes the
   * gate, the INSERT envelope is sent once, and when the loopback answers it
   * the response is 200 with a non-null body.
   */
  lemma InsertBySuperadmin<J>(u: User, echoed: User, ids: Codec<Long>, objects: Codec<J>)
    requires RoundTrips(ids, ReceiveMessage(echoed))
    ensures var send := (mp: MessagePayload) => Replied(ids.writeAck(ReceiveMessage(echoed)).text);
            var o := Handle(Manage(Insert(u)), {SuperadminAuthority, SystemAdministratorAuthority}, send, ids, objects);
            && o.Served?
            && Published(o) == [Envelope(Insert(u))]
            && o.exchange.response.status.Code() == 200
            && o.exchange.response.body.Some?
  {
    TestAuthoritiesAreRoles();
    LoopbackAnswersInsertOrUpdate(INSERT, echoed, ids);
  }

  /** Without a role hierarchy, the broader role alone does not open the hello probe. */
  lemma SuperadminAloneCannotSayHello<J>(send: MessagePayload -> Sent, ids: Codec<Long>, objects: Codec<J>)
    ensures Handle(Hello, {SuperadminAuthority}, send, ids, objects) == Denied
    ensures Handle(Hello, {SystemAdministratorAuthority}, send, ids, objects).Served?
  {
    TestAuthoritiesAreRoles();
    AuthorityInjective(SUPERADMIN, SYSTEM_ADMINISTRATOR);
  }
}
