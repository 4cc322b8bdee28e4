/** The two sides of the handshake: how each one comes to its key and nonces. */
module Peering {
  import opened Wrappers
  import opened Bytes
  import opened Common
  import opened StreamBuffer
  import opened ChunkParser
  import opened Pseudonode

  /** What a side has after the handshake: it writes with `local` and reads with
      `remote`. */
  datatype Session = Session(secret: Secret, local: nat, remote: nat)

  /** The key from the other side's public key and its own secret key, the nonces
      from its own chunk and the other's. */
  function Derived(env: Env, secretKey: seq<byte>, own: seq<byte>, other: seq<byte>, responder: bool): Session
    requires |other| >= 36
  {
    var (local, remote) := env.nonces(own, other, responder);
    Session(env.precompute(other[4..36], secretKey), local, remote)
  }

  datatype Greeting = Agreed(session: Session) | Malformed | Hangs

  /** The side that speaks first. What the stream delivers together with the
      answer, behind it, is lost with the temporary buffer. */
  method Initiate(env: Env, secretKey: seq<byte>, message: seq<byte>, stream: Source)
    returns (sent: seq<byte>, greeting: Greeting, ghost lost: seq<byte>)
    requires |message| <= 0xffff
    modifies stream
    ensures sent == Frame(message)
    ensures var all := old(stream.incoming);
            if !Arrives(all) then greeting == Hangs
            else
              && lost + stream.incoming == AfterFirst(all)
              && greeting == if |FirstChunk(all)| < 36 then Malformed
                             else Agreed(Derived(env, secretKey, Frame(message), FirstChunk(all), false))
  {
    sent := Frame(message);
    var buffer := new ChunkBuffer();
    assert buffer.Pending() + stream.incoming == stream.incoming;
    var answer := buffer.ReadChunk(stream);
    lost := buffer.Pending();
    match answer
    case None => greeting := Hangs;
    case Some(chunk) =>
      greeting := if |chunk| < 36 then Malformed else Agreed(Derived(env, secretKey, sent, chunk, false));
  }

  /** The side that answers. */
  method Respond(env: Env, secretKey: seq<byte>, message: seq<byte>, stream: Source)
    returns (sent: seq<byte>, greeting: Greeting, ghost lost: seq<byte>)
    requires |message| <= 0xffff
    modifies stream
    ensures sent == if greeting.Agreed? then Frame(message) else []
    ensures var all := old(stream.incoming);
            if !Arrives(all) then greeting == Hangs
            else
              && lost + stream.incoming == AfterFirst(all)
              && greeting == if |FirstChunk(all)| < 36 then Malformed
                             else Agreed(Derived(env, secretKey, Frame(message), FirstChunk(all), true))
  {
    sent := [];
    var buffer := new ChunkBuffer();
    assert buffer.Pending() + stream.incoming == stream.incoming;
    var call := buffer.ReadChunk(stream);
    lost := buffer.Pending();
    match call
    case None => greeting := Hangs;
    case Some(chunk) =>
      if |chunk| < 36 {
        greeting := Malformed;
      } else {
        sent := Frame(message);
        greeting := Agreed(Derived(env, secretKey, sent, chunk, true));
      }
  }

  /** The two sides agree: one secret, and what the one writes with the other
      reads with. */
  lemma SidesAgree(env: Env, a: seq<byte>, b: seq<byte>, x: seq<byte>, y: seq<byte>, responder: bool)
    requires SoundHandshake(env) && |x| >= 36 && |y| >= 36
    requires x[4..36] == env.publicOf(a) && y[4..36] == env.publicOf(b)
    ensures var s, t := Derived(env, a, x, y, responder), Derived(env, b, y, x, !responder);
            s.secret == t.secret && s.local == t.remote && s.remote == t.local
  {
  }

  /** The two sides of one connection, each hearing what the other sent: they come
      to the same secret, and each writes with what the other reads with. */
  method Meet(env: Env, a: seq<byte>, b: seq<byte>, hello: seq<byte>, answer: seq<byte>)
    returns (caller: Greeting, callee: Greeting)
    requires SoundHandshake(env) && 34 <= |hello| < 0xffff && 34 <= |answer| < 0xffff
    requires hello[2..34] == env.publicOf(a) && answer[2..34] == env.publicOf(b)
    ensures caller.Agreed? && callee.Agreed?
    ensures var s, t := caller.session, callee.session;
            s.secret == t.secret && s.local == t.remote && s.remote == t.local
  {
    hide SoundHandshake;
    var call := new Source(Frame(hello), []);
    Heard(hello);
    Heard(answer);
    var sent; ghost var lost;
    sent, callee, lost := Respond(env, b, answer, call);
    var back := new Source(sent, []);
    sent, caller, lost := Initiate(env, a, hello, back);
    SidesAgree(env, a, b, Frame(hello), Frame(answer), false);
  }

  /** A whole connection message arrives, with its public key in its place. */
  lemma Heard(message: seq<byte>)
    requires 34 <= |message| < 0xffff
    ensures var c := Frame(message);
            Arrives(c) && FirstChunk(c) == c && |c| >= 36 && c[4..36] == message[2..34]
  {
    var c := Frame(message);
    assert c[4..36] == c[2..][2..34];
  }

  /** So a message that one side writes is read back by the other. */
  lemma PeerReads(env: Env, a: seq<byte>, b: seq<byte>, x: seq<byte>, y: seq<byte>, responder: bool, message: seq<byte>,
                  rest: seq<byte>)
    requires SoundCrypto(env) && SoundHandshake(env) && |x| >= 36 && |y| >= 36
    requires x[4..36] == env.publicOf(a) && y[4..36] == env.publicOf(b)
    requires |message| >= 4 && BeVal(message[..4]) + 4 == |message|
    ensures Small(Pieces(message))
    ensures var s, t := Derived(env, a, x, y, responder), Derived(env, b, y, x, !responder);
            Reading(env, Key(t.secret, t.remote), true, [], 0,
                    Flatten(Sealed(env, Key(s.secret, s.local), Pieces(message))) + rest) ==
            (Got(s.local + |Pieces(message)|, message), rest)
  {
    hide Reading, Sealed, Pieces, SoundCrypto;
    SidesAgree(env, a, b, x, y, responder);
    ReadUndoesWrite(env, Key(Derived(env, a, x, y, responder).secret, Derived(env, a, x, y, responder).local), true,
                    message, rest);
  }

  /** The key one side of a recorded connection writes with, as that side derived
      it: the node from its own identity, the peer from its own. */
  function WritesWith(env: Env, peerSecret: seq<byte>, initiator: Initiator, local: seq<byte>, remote: seq<byte>,
                      sender: Sender): Key
    requires |local| >= 36 && |remote| >= 36
  {
    var s := if sender.Local? then Derived(env, env.secretKey, local, remote, initiator.InitiatorRemote?)
             else Derived(env, peerSecret, remote, local, initiator.InitiatorLocal?);
    Key(s.secret, s.local)
  }

  /** The connection messages carry the public keys of the node and of the peer. */
  ghost predicate Introduced(env: Env, peerSecret: seq<byte>, local: seq<byte>, remote: seq<byte>) {
    && |local| >= 36 && |remote| >= 36
    && local[4..36] == env.publicKey == env.publicOf(env.secretKey)
    && remote[4..36] == env.publicOf(peerSecret)
  }

  /** The recorder, which knows the node's secret key only, comes to the keys that
      both sides write with. */
  lemma RecorderAgrees(env: Env, peerSecret: seq<byte>, initiator: Initiator, local: seq<byte>, remote: seq<byte>)
    requires SoundHandshake(env) && Introduced(env, peerSecret, local, remote)
    ensures MakeKeys(env, local, remote, initiator) ==
            Some((WritesWith(env, peerSecret, initiator, local, remote, Local),
                  WritesWith(env, peerSecret, initiator, local, remote, Remote)))
  {
    SidesAgree(env, env.secretKey, peerSecret, local, remote, initiator.InitiatorRemote?);
  }
}
