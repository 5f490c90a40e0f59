# User service controller: role gate, operation envelopes and reply mapping

This project models the HTTP front of the user service. `UserServiceController` exposes four administrative operations: insert, edit, delete and view (search). It does not perform them. Each endpoint works in three steps:

1. It builds an operation envelope (`MessagePayload`).
2. It hands the envelope to a message producer, which relays it to a backing worker over a broker.
3. It turns what comes back into an HTTP status and body.

A fifth endpoint, `hello`, is a probe that answers with a fixed greeting. Every endpoint sits behind a role check (`@PreAuthorize`). The check runs before the handler body, so a denied request never reaches the producer. The test class adds a loopback responder (`receiveMessage`) that answers every message that reads as a `User` with a success ACK. It also adds three scenarios about who may call `/api/user/insert`.

Modules:

- `Wrappers` (wrappers.dfy): `Option`, standing for Java's `null`.
- `Entities` (entities.dfy): the 64-bit `Long`, `User`, `OperationType`, `MessagePayload` and `ACK<P>`.
- `Messaging` (messaging.dfy): what the producer gives back (`Sent`). It also holds the object mapper as a `Codec<P>` value of three caller-supplied functions: read an ACK, write an ACK, write a bare payload.
- `Security` (security.dfy): roles, the `"ROLE_"` authority strings and `HasRole`.
- `UserServiceController` (controller.dfy): the envelopes, the decision table `Respond`, the five endpoints, the role table and the gate (`Handle`), and a stream of requests (`Run`, and `Serve` with the controller's step).
- `UserControllerTest` (controller_test.dfy): `ReceiveMessage` and the role scenarios, stated as lemmas.

The model keeps these asymmetries of the code:

- DELETE has no minimal-OK branch. A successful ACK is always written out whole.
- SEARCH writes the payload even when it is null.
- INSERT and UPDATE answer the minimal `{ 'response' : 'OK'}` only when the payload is null.
- A reply that cannot be read gives 500. Its body is the exception's message, not a fixed indicator.
- The model takes a producer timeout to arrive as a null reply (`NoReply`), and an exception thrown by `sendMessage` as `SendFailed` with that exception's message. Either way the answer is 500.

## Model

| member | source | states |
|---|---|---|
| Entities.NewUser | userservice/src/main/java/it/uniroma1/userservice/controllers/UserServiceController.java:150-151 | A fresh `User` has every field unset. |
| Security.Authority | userservice/src/main/java/it/uniroma1/userservice/controllers/UserServiceController.java:69 | The authority for a role starts with `ROLE_` and reads back as that role. |
| Security.OnlyAuthorityGrants | userservice/src/test/java/it/uniroma1/userservice/UserControllerTest.java:76-79 | Any authority string that reads as role r is exactly `"ROLE_" + r`. |
| Security.AuthorityInjective | userservice/src/main/java/it/uniroma1/userservice/controllers/UserServiceController.java:57 | Two roles have the same authority string only if they are the same role, so neither role implies the other. |
| Security.HasRoleIffGranted | userservice/src/main/java/it/uniroma1/userservice/controllers/UserServiceController.java:69 | `hasRole(r)` holds exactly when some granted authority reads as r. |
| UserServiceController.Envelope | userservice/src/main/java/it/uniroma1/userservice/controllers/UserServiceController.java:73-189 | Every envelope has the operation's tag. Exactly the relevant fields are set: INSERT and UPDATE carry the user and no search string; DELETE carries a user with only the id set; SEARCH carries no user. Reading the envelope back recovers the request. |
| UserServiceController.Written | userservice/src/main/java/it/uniroma1/userservice/controllers/UserServiceController.java:159-177 | Writing gives 200 with the written text. When the writer throws, it gives 500 whose body is the exception's message. It is never 400. |
| UserServiceController.Respond | userservice/src/main/java/it/uniroma1/userservice/controllers/UserServiceController.java:76-102 | No reply gives 500 with the not-performed message. A thrown `sendMessage` gives 500 with the exception's message. The status is 400 exactly when the reply is a readable ACK with success=false, and then the body is that ACK's message. 200 only follows a successful ACK and always has a non-null body. For INSERT, UPDATE and DELETE, a 200 body is either the whole ACK written out or the minimal OK. |
| UserServiceController.NoReplyDiffersFromNullAck | userservice/src/main/java/it/uniroma1/userservice/controllers/UserServiceController.java:92-98 | No reply gives 500 with the not-performed message. A null ACK gives 500 with "Can't complete the operation". The two bodies differ for every operation. |
| UserServiceController.UnreadableIsInternalError | userservice/src/main/java/it/uniroma1/userservice/controllers/UserServiceController.java:100-102 | A reply that fails to decode gives 500 carrying the exception's message. It is never turned into a 400. |
| UserServiceController.RejectionShowsMessage | userservice/src/main/java/it/uniroma1/userservice/controllers/UserServiceController.java:89-91 | An ACK with success=false gives 400 with body `ack.message`, for all four operations. |
| UserServiceController.InsertOrUpdateSuccess | userservice/src/main/java/it/uniroma1/userservice/controllers/UserServiceController.java:81-88 | For INSERT and UPDATE success: a non-null payload gives the whole ACK written out. A null payload gives 200 with `{ 'response' : 'OK'}`. |
| UserServiceController.DeleteSuccess | userservice/src/main/java/it/uniroma1/userservice/controllers/UserServiceController.java:158-161 | For DELETE success, the body is always the whole ACK written out, whether or not the payload is null. |
| UserServiceController.SearchSuccess | userservice/src/main/java/it/uniroma1/userservice/controllers/UserServiceController.java:195-198 | For SEARCH success, the body is the payload alone, written even when it is null. |
| UserServiceController.InternalErrorCases | userservice/src/main/java/it/uniroma1/userservice/controllers/UserServiceController.java:92-102 | 500 happens exactly when the reply is missing, the send threw, the reply is unreadable or the ACK is null. It also happens on a successful ACK whose body cannot be written: the whole ACK for INSERT and UPDATE with a payload and for DELETE, the bare payload for SEARCH. |
| UserServiceController.ProtectedResourceExample | userservice/src/main/java/it/uniroma1/userservice/controllers/UserServiceController.java:56-65 | The hello probe answers 200 with "Hello!". |
| UserServiceController.InsertUser | userservice/src/main/java/it/uniroma1/userservice/controllers/UserServiceController.java:70-103 | `sendMessage` is called exactly once, with the INSERT envelope of this user. The response is the decision table applied to that call's reply. |
| UserServiceController.EditUser | userservice/src/main/java/it/uniroma1/userservice/controllers/UserServiceController.java:108-141 | `sendMessage` is called exactly once, with the UPDATE envelope of this user. The response is the decision table applied to that call's reply. |
| UserServiceController.DeleteUser | userservice/src/main/java/it/uniroma1/userservice/controllers/UserServiceController.java:146-178 | `sendMessage` is called exactly once, with the DELETE envelope of the path id. The response is the decision table applied to that call's reply. |
| UserServiceController.ViewUsers | userservice/src/main/java/it/uniroma1/userservice/controllers/UserServiceController.java:183-214 | `sendMessage` is called exactly once, with the SEARCH envelope of this search string. The response is the decision table applied to that call's reply. |
| UserServiceController.Handle | userservice/src/main/java/it/uniroma1/userservice/controllers/UserServiceController.java:56-70 | A request is denied exactly when the credential lacks the authority for the endpoint's role: SYSTEM_ADMINISTRATOR for hello, SUPERADMIN for the rest. A denied request sends nothing. An admitted message-backed request sends its envelope exactly once, and its response is the decision table applied to that send's reply, with the Long codec for insert, edit and delete and the Object codec for view. An admitted hello answers 200 "Hello!" and sends nothing. |
| UserServiceController.Run | userservice/src/main/java/it/uniroma1/userservice/controllers/UserServiceController.java:67-75 | Requests run one after another through one step each, with exactly one outcome per request. |
| UserServiceController.RunAnswersEach | userservice/src/main/java/it/uniroma1/userservice/controllers/UserServiceController.java:67-75 | For any step that sends what the gate lets through, request i is handled at call number `calls` plus the number of envelopes the requests before it sent. |
| UserServiceController.RunDeniesExactlyRefused | userservice/src/main/java/it/uniroma1/userservice/controllers/UserServiceController.java:67-69 | For any step that denies what the gate refuses, request i is denied exactly when its credential fails the role check. |
| UserServiceController.RunSendsOnlyAdmitted | userservice/src/main/java/it/uniroma1/userservice/controllers/UserServiceController.java:67-75 | For any step that sends what the gate lets through, the producer receives exactly the envelopes of the admitted message-backed requests, in order. |
| UserServiceController.HandleStepIsGate | userservice/src/main/java/it/uniroma1/userservice/controllers/UserServiceController.java:67-75 | The controller's step (`Handle` with the producer of the given call number) denies exactly the refused requests and sends exactly the admitted envelope. |
| UserServiceController.Serve | userservice/src/main/java/it/uniroma1/userservice/controllers/UserServiceController.java:67-75 | Requests are handled one after another by `Handle`, with exactly one outcome per request. |
| UserServiceController.ServeAnswersEach | userservice/src/main/java/it/uniroma1/userservice/controllers/UserServiceController.java:67-75 | Request i of a stream is handled by `Handle` with the producer of call number `calls` plus the number of envelopes sent by the requests before it. A denied request or a hello probe consumes no call. |
| UserServiceController.ServeSendsOnlyAdmitted | userservice/src/main/java/it/uniroma1/userservice/controllers/UserServiceController.java:67-75 | Over any sequence of requests, the producer receives exactly the envelopes of the admitted message-backed requests, in order. Denied requests use no producer call. |
| UserServiceController.ServeDeniesExactlyRefused | userservice/src/main/java/it/uniroma1/userservice/controllers/UserServiceController.java:67-69 | Over any sequence of requests, request i is denied exactly when its credential fails the endpoint's role check. |
| UserControllerTest.ReceiveMessage | userservice/src/test/java/it/uniroma1/userservice/UserControllerTest.java:230-245 | The loopback reply has success=true and message "Ok", and its payload is the id of the user it read. |
| UserControllerTest.LoopbackAnswersInsertOrUpdate | userservice/src/test/java/it/uniroma1/userservice/UserControllerTest.java:233-244 | An INSERT or UPDATE answered by the loopback, through a mapper that reads back what it writes, gives 200. The body is the loopback's own reply text when the user had an id, and the minimal OK otherwise. |
| UserControllerTest.TestAuthoritiesAreRoles | userservice/src/test/java/it/uniroma1/userservice/UserControllerTest.java:75-79 | "ROLE_SUPERADMIN" and "ROLE_SYSTEM_ADMINISTRATOR" are the authorities `hasRole` looks for. |
| UserControllerTest.InsertByUnauthorizedUser | userservice/src/test/java/it/uniroma1/userservice/UserControllerTest.java:175-214 | With no authorities, insert is denied and nothing is sent. |
| UserControllerTest.InsertBySystemAdministrator | userservice/src/test/java/it/uniroma1/userservice/UserControllerTest.java:126-171 | With only ROLE_SYSTEM_ADMINISTRATOR, insert is denied and nothing is sent. |
| UserControllerTest.InsertBySuperadmin | userservice/src/test/java/it/uniroma1/userservice/UserControllerTest.java:71-121 | With ROLE_SUPERADMIN and ROLE_SYSTEM_ADMINISTRATOR, insert is admitted and sends its envelope once. Answered by the loopback, it gives 200 with a non-null body. |
| UserControllerTest.SuperadminAloneCannotSayHello | userservice/src/main/java/it/uniroma1/userservice/controllers/UserServiceController.java:56-60 | The model has no role hierarchy. ROLE_SUPERADMIN alone is denied the hello probe, and ROLE_SYSTEM_ADMINISTRATOR alone is admitted. |

## Left out

- `MessageProducer.sendMessage` is not part of this model. The model does not cover its correlation identifiers, in-flight map, timeout or broker publishing. Its result is an input: a reply text, null, or a thrown exception's message. `Serve` indexes the input by call number so that successive calls can get different replies. Concurrency between requests is not modelled.
- Jackson's `ObjectMapper` is foreign code. Reading and writing are functions the caller supplies (`Codec`). The JSON format itself is not modelled.
- Spring Security and JWT are foreign code: token generation, signature checks and how authorities get from the token into the security context. Only the abstract check is kept: the authority set contains `"ROLE_" + role`.
- The status the framework sends on denial (401 in the tests) is outside the controller. The model has a `Denied` outcome with no status.
- `UserInsertModel.toUser` and `UserEditModel.toUser` are not part of this model. The insert and edit requests carry the already converted `User`, and an exception thrown by the conversion is not modelled.
- `@Valid` bean validation, `@CrossOrigin` and logging are left out. They do not change the response of an admitted, valid request.
- The `try`/`catch` in the hello probe is left out. Its body cannot throw.
- Of `receiveMessage`, only the building of the ACK from the decoded user is modelled. The model does not cover reading the message as a `User`, writing the reply, or the `@RabbitListener`/`@SendTo` wiring.
- The Java classes `User`, `ACK` and `MessagePayload` are not shown. Their fields in the model come from the accessors the controller and test call. `User.password` is the exception: no code shown reads it, and it stands for what `UserInsertModel.toUser` copies from the request model, whose `setPassword` the test calls.
- A role hierarchy configured in Spring Security (one role implying another) is not modelled. Each role is satisfied only by its own authority string.
- Which of `NoReply` and `SendFailed` a failed publish becomes is decided inside `MessageProducer`, which is not part of this model.
- UserServiceController.Run: its own contract states only one outcome per request. The call number each request gets is stated by `RunAnswersEach`.
- UserServiceController.Serve: its own contract states only one outcome per request. Which producer call each request gets is stated by `ServeAnswersEach`, which requests are denied by `ServeDeniesExactlyRefused`, and what reaches the producer by `ServeSendsOnlyAdmitted`.
