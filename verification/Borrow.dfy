/**
 The transport borrowing of `_decode_and_dispatch` (hivescope/node.py), on the shared objects it
 works on. The connection object is the master's; it carries the master's transport, and for the
 duration of one decode it carries the satellite's own, or none when the satellite has none yet.
 What is sealed and what decodes is said by the functions of `Wire`.
 */
module Borrow {
  import opened Options
  import opened Wire

  // One side's transport of a Noise session: CipherState counters for both directions.
  class NoiseTransport {
    const session: nat
    var sendNonce: nat
    var recvNonce: nat

    constructor (session: nat)
      ensures this.session == session && sendNonce == 0 && recvNonce == 0
    {
      this.session := session;
      sendNonce, recvNonce := 0, 0;
    }
  }

  function Just(t: NoiseTransport?): set<NoiseTransport>
  {
    if t == null then {} else {t}
  }

  // A transport as its receiver sees it, and as its sender does.
  function Receiver(t: NoiseTransport?): Option<Cipher>
    reads Just(t)
  {
    if t == null then None else Some(Cipher(t.session, t.recvNonce))
  }

  function Sender(t: NoiseTransport?): Seal
    reads Just(t)
  {
    if t == null then Clear else SealAt(t.session, Some(t.sendNonce))
  }

  datatype Encoded = Encoded(seal: Seal, text: string)

  class Connection {
    var noise: NoiseTransport?

    constructor ()
      ensures noise == null
    {
      noise := null;
    }

    // Encode with the current transport and its next nonce.
    method Encode(text: string) returns (frame: Encoded)
      modifies Just(noise)`sendNonce
      ensures frame == Encoded(old(Sender(noise)), text)
      ensures noise != null ==> noise.sendNonce == old(noise.sendNonce) + 1
    {
      if noise == null {
        return Encoded(Clear, text);
      }
      frame := Encoded(Sealed(noise.session, noise.sendNonce), text);
      noise.sendNonce := noise.sendNonce + 1;
    }

    // Decode with whatever transport the connection carries; None stands for the exception. A
    // failed authentication does not move the nonce.
    method Decode(frame: Encoded) returns (text: Option<string>)
      modifies Just(noise)`recvNonce
      ensures text == if Decodes(old(Receiver(noise)), frame.seal) then Some(frame.text) else None
      ensures Receiver(noise) == AfterDecode(old(Receiver(noise)), frame.seal)
    {
      text := None;
      match frame.seal
      case Clear =>
        if noise == null {
          text := Some(frame.text);
        }
      case Sealed(session, nonce) =>
        if noise != null && session == noise.session && nonce == noise.recvNonce {
          noise.recvNonce := noise.recvNonce + 1;
          text := Some(frame.text);
        }
    }
  }

  /** Borrow, decode, give back, on every path. The frame is read, and the satellite's own transport
      moves on, exactly as in the step machine of the wire; the master's transport is on the
      connection again afterwards with both its counters untouched. */
  method DecodeBorrowed(conn: Connection, own: NoiseTransport?, frame: Encoded) returns (text: Option<string>)
    requires conn.noise != null ==> conn.noise != own
    modifies conn`noise, Just(own)`recvNonce
    ensures conn.noise == old(conn.noise) && Sender(conn.noise) == old(Sender(conn.noise))
    ensures Receiver(conn.noise) == if conn.noise == null then None else old(Receiver(conn.noise))
    ensures text == if Decodes(old(Receiver(own)), frame.seal) then Some(frame.text) else None
    ensures Receiver(own) == AfterDecode(old(Receiver(own)), frame.seal)
  {
    var saved := conn.noise;
    conn.noise := own;
    text := conn.Decode(frame);
    conn.noise := saved;
  }

  /** What the master sealed with its transport, the satellite's own transport reads when the two
      belong to one session and the satellite has read everything sent before. */
  method SendAndReceive(conn: Connection, own: NoiseTransport, text: string) returns (received: Option<string>)
    requires conn.noise != null && conn.noise != own && conn.noise.session == own.session
    requires own.recvNonce == conn.noise.sendNonce
    modifies conn, conn.noise, own
    ensures received == Some(text) && conn.noise == old(conn.noise)
    ensures own.recvNonce == conn.noise.sendNonce == old(own.recvNonce) + 1
  {
    var frame := conn.Encode(text);
    received := DecodeBorrowed(conn, own, frame);
  }
}
