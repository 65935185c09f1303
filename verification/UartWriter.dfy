/** The handshake between uart_write and the UART's interrupt handler (FreeRTOS variant): a 1024-byte
    ring with one unused slot, the transmitting and txSleeping flags, and the semaphore portTxBlock.
    Every method of TxPort is one step of the writing task or one interrupt; they interleave in any
    order, and Valid holds between them. */
module UartWriter {
  import opened Arithmetic

  const BUFFER_SIZE: nat := 1024
  const MAX_LEN: nat := 255    // outLen is a uint8_t

  type Byte = bv8

  // Byte number i of all bytes ever pushed uses slot i % 1024.

  /** The ring holds the pushed bytes from number popped on. */
  ghost predicate Queued(buffer: seq<Byte>, pushed: seq<Byte>, popped: nat)
  {
    && |buffer| == BUFFER_SIZE && popped <= |pushed|
    && forall i {:trigger buffer[Slot(i, BUFFER_SIZE)]} ::
         popped <= i < |pushed| ==> buffer[Slot(i, BUFFER_SIZE)] == pushed[i]
  }

  lemma QueuedPush(buffer: seq<Byte>, pushed: seq<Byte>, popped: nat, b: Byte)
    requires Queued(buffer, pushed, popped) && |pushed| < popped + BUFFER_SIZE
    ensures Queued(buffer[Slot(|pushed|, BUFFER_SIZE) := b], pushed + [b], popped)
  {
    forall i | popped <= i < |pushed| ensures Slot(i, BUFFER_SIZE) != Slot(|pushed|, BUFFER_SIZE) {
      SlotsApart(i, |pushed|, BUFFER_SIZE);
    }
    hide Slot;
  }

  lemma QueuedPop(buffer: seq<Byte>, pushed: seq<Byte>, popped: nat)
    requires Queued(buffer, pushed, popped) && popped < |pushed|
    ensures buffer[Slot(popped, BUFFER_SIZE)] == pushed[popped] && Queued(buffer, pushed, popped + 1)
    ensures pushed[..popped] + [pushed[popped]] == pushed[..popped + 1]
  {
  }

  /** Where uart_write is; out is the caller's buffer, i of its bytes have been pushed. */
  datatype Writer =
    | Idle
    | Next(out: seq<Byte>, i: nat)    // top of the loop
    | Sleep(out: seq<Byte>, i: nat)   // found the ring full; at the semaphore
    | Push(out: seq<Byte>, i: nat)    // a slot is free

  class TxPort {
    const buffer: array<Byte>
    var readptr: nat
    var writeptr: nat
    var transmitting: bool      // and the transmit interrupt enabled
    var txSleeping: bool
    var block: nat              // count of portTxBlock, a semaphore of at most 1
    var writer: Writer

    ghost var pushed: seq<Byte>   // all bytes ever put into the ring
    ghost var sent: seq<Byte>     // all bytes ever given to the transmitter

    ghost function Count(): int reads this { |pushed| - |sent| }

    ghost predicate WriterOk()
      reads this
    {
      match writer
      case Idle => !txSleeping && block == 0 && (!transmitting ==> Count() == 0)
      case Next(out, i) =>
        i <= |out| <= MAX_LEN && !txSleeping && block == 0 && (!transmitting ==> Count() <= i)
      case Push(out, i) =>
        i < |out| <= MAX_LEN && !txSleeping && block == 0 && (!transmitting ==> Count() <= i)
        && Count() < BUFFER_SIZE - 1
      case Sleep(out, i) =>
        i < |out| <= MAX_LEN && (!transmitting ==> Count() <= i)
        && if txSleeping then block == 0 && Count() == BUFFER_SIZE - 1
           else block == 1 && Count() < BUFFER_SIZE - 1
    }

    ghost predicate Valid()
      reads this, buffer
    {
      && buffer.Length == BUFFER_SIZE
      && sent <= pushed && Count() < BUFFER_SIZE
      && readptr == Slot(|sent|, BUFFER_SIZE) && writeptr == Slot(|pushed|, BUFFER_SIZE)
      && Queued(buffer[..], pushed, |sent|)
      && WriterOk()
    }

    constructor ()
      ensures Valid() && pushed == [] && writer == Idle && !transmitting && fresh(buffer)
    {
      buffer := new Byte[BUFFER_SIZE];
      readptr, writeptr, transmitting, txSleeping, block, writer := 0, 0, false, false, 0, Idle;
      pushed, sent := [], [];
    }

    // -------------------------------------------------------------- uart_write

    method Begin(out: seq<Byte>)
      requires Valid() && writer.Idle? && |out| <= MAX_LEN
      modifies `writer
      ensures Valid() && writer == Next(out, 0)
    {
      hide Slot;
      hide Queued;
      writer := Next(out, 0);
    }

    /** The critical section that looks for a free slot. A full ring is always being transmitted. */
    method CheckFull() returns (full: bool)
      requires Valid() && writer.Next? && writer.i < |writer.out|
      modifies `writer, `txSleeping
      ensures Valid() && (full <==> Count() == BUFFER_SIZE - 1)
      ensures var w := old(writer); writer == if full then Sleep(w.out, w.i) else Push(w.out, w.i)
      ensures full ==> transmitting
    {
      FullEmpty(|pushed|, |sent|, BUFFER_SIZE);
      hide Slot;
      hide Queued;
      full := (writeptr + 1) % BUFFER_SIZE == readptr;
      if full {
        txSleeping := true;
        writer := Sleep(writer.out, writer.i);
      } else {
        writer := Push(writer.out, writer.i);
      }
    }

    /** Woken up: the semaphore was given, and there is a free slot. */
    method Wake()
      requires Valid() && writer.Sleep? && block > 0
      modifies `writer, `block
      ensures Valid() && Count() < BUFFER_SIZE - 1
      ensures var w := old(writer); writer == Push(w.out, w.i)
    {
      hide Slot;
      hide Queued;
      block := block - 1;
      writer := Push(writer.out, writer.i);
    }

    method StoreByte()
      requires Valid() && writer.Push?
      modifies `writer, `writeptr, `pushed, buffer
      ensures Valid()
      ensures var w := old(writer); pushed == old(pushed) + [w.out[w.i]] && writer == Next(w.out, w.i + 1)
    {
      ghost var b := writer.out[writer.i];
      QueuedPush(buffer[..], pushed, |sent|, b);
      BumpSlot(|pushed|, BUFFER_SIZE);
      hide Slot;
      hide Queued;
      buffer[writeptr] := writer.out[writer.i];
      writeptr := Bump(writeptr, BUFFER_SIZE);
      pushed := pushed + [b];
      writer := Next(writer.out, writer.i + 1);
    }

    /** The critical section at the end: afterwards nothing stays behind in an idle port. */
    method Kick()
      requires Valid() && writer.Next? && writer.i == |writer.out|
      modifies `writer, `transmitting
      ensures Valid() && writer == Idle && transmitting
    {
      hide Slot;
      hide Queued;
      if !transmitting {
        transmitting := true;
      }
      writer := Idle;
    }

    // -------------------------------------------------------------- the interrupt

    /** The transmit part of uart_status_irq, entered with the holding register empty: also for a
        received byte, while no transmission has been kicked off. */
    method TxInterrupt() returns (thr: seq<Byte>)
      requires Valid()
      modifies `readptr, `transmitting, `txSleeping, `block, `sent
      ensures Valid() && sent == old(sent) + thr && |thr| <= 1
      ensures thr == [] <==> old(Count()) == 0
      ensures transmitting == (old(transmitting) && thr != [])
      ensures old(writer.Sleep? && txSleeping) ==> block == 1
    {
      FullEmpty(|pushed|, |sent|, BUFFER_SIZE);
      BumpSlot(|sent|, BUFFER_SIZE);
      if writeptr != readptr {
        QueuedPop(buffer[..], pushed, |sent|);
        hide Slot;
        hide Queued;
        thr := [buffer[readptr]];
        readptr := Bump(readptr, BUFFER_SIZE);
        sent := sent + thr;
        if txSleeping {
          block := 1;
          txSleeping := false;
        }
      } else {
        thr := [];
        transmitting := false;
      }
    }

    // -------------------------------------------------------------- what Valid means

    /** While nobody transmits, the ring holds at most what the current call has pushed. */
    lemma AtMostThisCall()
      requires Valid() && !transmitting
      ensures Count() <= if writer.Idle? then 0 else writer.i
      ensures Count() <= MAX_LEN
    {
      hide Slot;
      hide Queued;
    }

    /** A writer never sleeps forever: either it has been woken already, or the transmitter is on with
        bytes to send, so that an interrupt is to come, and that interrupt wakes it. */
    lemma SleeperWillWake()
      requires Valid() && writer.Sleep?
      ensures block > 0 || (transmitting && txSleeping && Count() > 0)
    {
      hide Slot;
      hide Queued;
    }

    /** First in, first out, nothing lost: what has been sent is a prefix of what was pushed, and an
        idle port that does not transmit has sent everything. */
    lemma AllSent()
      requires Valid()
      ensures sent <= pushed && (writer.Idle? && !transmitting ==> sent == pushed)
    {
      hide Slot;
      hide Queued;
    }

    // -------------------------------------------------------------- the whole call

    /** Any number of interrupts. */
    method Interrupts()
      requires Valid()
      modifies `readptr, `transmitting, `txSleeping, `block, `sent
      ensures Valid() && old(sent) <= sent
      ensures old(block) > 0 ==> block > 0
    {
      var n: int := *;
      while n > 0
        invariant Valid() && old(sent) <= sent && (old(block) > 0 ==> block > 0)
      {
        var thr := TxInterrupt();
        n := n - 1;
      }
    }

    /** uart_write, with interrupts between any two of its steps; a sleeping writer waits for one. It
        always returns, and has pushed exactly the caller's bytes, in order. */
    method Write(out: seq<Byte>)
      requires Valid() && writer.Idle? && |out| <= MAX_LEN
      modifies this, buffer
      ensures Valid() && writer.Idle? && pushed == old(pushed) + out && old(sent) <= sent
    {
      hide Slot;
      hide Queued;
      Begin(out);
      for i := 0 to |out|
        invariant Valid() && writer == Next(out, i) && pushed == old(pushed) + out[..i] && old(sent) <= sent
      {
        Interrupts();
        var full := CheckFull();
        Interrupts();
        if full {
          SleeperWillWake();
          if block == 0 {
            var thr := TxInterrupt();
          }
          Wake();
        }
        Interrupts();
        StoreByte();
        assert out[..i + 1] == out[..i] + [out[i]];
      }
      Interrupts();
      assert out[..|out|] == out;
      Kick();
    }
  }
}
