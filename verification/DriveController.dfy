/** The controller's side of the drive protocol, on its buffers and registers: the
    channel that returns responses, and the collector of command bytes. */
module DriveController {
  import opened DriveSpec

  /** The response buffer, the receive page, and the registers that move between them.
      The rest of the drive is out of its reach. */
  class ReceiveChannel {
    const resultBuffer: array<int>
    const page: array<int>
    var length: int
    var offset: int
    var index: int
    var end: int
    var dma: bool
    var delay: int
    var last: int
    var irq: Requests
    ghost var past: History
    ghost const rest: Drive

    constructor (resultBuffer: array<int>, page: array<int>, ghost rest: Drive)
      requires resultBuffer.Length == BUFFER && page.Length == 0x100 && resultBuffer != page
      ensures Valid() && length == 0 && past == History([], []) && this.rest == rest
      ensures this.resultBuffer == resultBuffer && this.page == page
    {
      this.resultBuffer, this.page, this.rest := resultBuffer, page, rest;
      length, offset, index, end, dma, delay, last := 0, 0, 0, 0, false, 0, 0;
      irq := Requests(false, false, false, false);
      past := History([], []);
    }

    ghost predicate Valid()
      reads this, resultBuffer, page
    {
      && resultBuffer.Length == BUFFER && page.Length == 0x100 && resultBuffer != page
      && 0 <= index < 0x100 && 0 <= offset && 0 <= length <= BUFFER && (length > 0 ==> offset <= length)
    }

    ghost function Model(): Drive
      reads this, resultBuffer, page
    {
      rest.(rx := Receive(resultBuffer[..], length, offset, index, end, dma, delay, last, page[..]),
            irq := irq, past := past)
    }

    /** Seals and starts a response of len bytes that the caller has put into the buffer. */
    method StartReturnData(len: int)
      requires Valid() && len < BUFFER
      modifies this`length, this`offset, this`irq, this`past, resultBuffer
      ensures Valid() && Model() == Respond(old(Model()), len)
    {
      if length > 0 || len <= 0 {
        return;
      }
      length := len;
      var checksum := SealOf(len);
      ghost var was := resultBuffer[..];
      assert was[..len] == resultBuffer[..len];
      resultBuffer[length] := checksum;
      assert resultBuffer[..] == was[len := checksum];
      length := length + 1;
      offset := 0;
      irq := irq.(received := true);
      past := past.(accepted := past.accepted + [resultBuffer[..length]]);
    }

    /** Puts a message into the buffer. */
    method Write(message: Message)
      requires Valid()
      modifies resultBuffer
      ensures Valid() && Model() == Written(old(Model()), message)
    {
      forall k | 0 <= k < |message| {
        resultBuffer[k] := message[k];
      }
      assert resultBuffer[..] == message + old(resultBuffer[..])[|message|..];
    }

    /** Carries out a command: the buffer is cleared first, whatever is in it. */
    method Answer(answer: Message)
      requires Valid()
      modifies this`length, this`offset, this`irq, this`past, resultBuffer
      ensures Valid() && Model() == Answered(old(Model()), answer)
    {
      hide Written, Respond;
      Clear();
      Write(answer);
      StartReturnData(|answer|);
    }

    method Clear()
      requires Valid()
      modifies resultBuffer
      ensures Valid() && Model() == Cleared(old(Model()))
    {
      forall k | 0 <= k < BUFFER {
        resultBuffer[k] := 0;
      }
      assert resultBuffer[..] == seq(BUFFER, _ => 0);
    }

    method SealOf(len: int) returns (checksum: int)
      requires 0 <= len <= resultBuffer.Length
      ensures checksum == Checksum(resultBuffer[..len])
    {
      checksum := 0xFF;
      var i := 0;
      while i < len
        invariant 0 <= i <= len && checksum == (0xFF - Sum(resultBuffer[..i])) % 0x100
      {
        assert resultBuffer[..i + 1][..i] == resultBuffer[..i];
        checksum := (checksum - resultBuffer[i]) % 0x100;
        i := i + 1;
      }
    }

    /** One byte of the loop below. */
    method TransferByte()
      requires Valid() && length > 0 && offset < length
      modifies this`index, this`offset, this`last, this`past, page
      ensures Valid() && Model() == PutByte(old(Model())) && offset == old(offset) + 1
    {
      last := resultBuffer[offset];
      page[index] := last;
      index := (index + 1) % 0x100;
      offset := offset + 1;
      past := past.(delivered := past.delivered + [last]);
    }

    /** The receive DMA loop: until the response is gone or the end position is reached. */
    method TransferLoop()
      requires Valid() && length > 0
      modifies this`index, this`offset, this`last, this`irq, this`past, page
      ensures Valid() && Model() == Transfer(old(Model()))
    {
      hide PutByte;
      ghost var start := Model();
      var more := true;
      while more && offset < length
        invariant Valid() && length == old(length)
        invariant Transfer(start) == if more then Transfer(Model()) else Model()
        decreases more, length - offset
      {
        TransferByte();
        if index == end {
          irq := irq.(receiveDone := true);
          more := false;
        }
      }
    }

    method ReturnDataByDma()
      requires Valid()
      modifies this`index, this`offset, this`length, this`last, this`irq, this`past, page
      ensures Valid() && Model() == ReturnData(old(Model()))
    {
      hide Transfer;
      if length == 0 || !dma || index == end || delay > 0 {
        return;
      }
      TransferLoop();
      if offset == length {
        length, offset := 0, 0;
        irq := irq.(received := false, mayTransmit := true);
      }
    }

    /** A read of the data register. */
    method ReadRegister() returns (v: int)
      requires Valid()
      modifies this`offset, this`length, this`last, this`irq, this`past
      ensures Valid() && Model() == ReadData(old(Model())) && v == last
    {
      if !dma && offset < length {
        last := resultBuffer[offset];
        offset := offset + 1;
        past := past.(delivered := past.delivered + [last]);
        if offset == length {
          irq := irq.(received := false, mayTransmit := true);
          length := 0;
        }
      } else {
        irq := irq.(received := false);
      }
      v := last;
    }
  }

  /** The command buffer and what has been found out about the command in it. */
  class CommandChannel {
    const commandBuffer: array<int>
    var length: int
    var active: int
    var checksumError: bool
    var unknownCommand: bool
    ghost const rest: Transmit

    constructor (commandBuffer: array<int>, ghost rest: Transmit)
      requires commandBuffer.Length == 32
      ensures Collecting() && Model().command == [] && this.commandBuffer == commandBuffer && this.rest == rest
    {
      this.commandBuffer, this.rest := commandBuffer, rest;
      length, active, checksumError, unknownCommand := 0, 0, false, false;
      new;
      assert commandBuffer[..0] == [];
    }

    /** No command is complete; the bytes so far are the front of a known one. */
    ghost predicate Collecting()
      reads this, commandBuffer
    {
      && commandBuffer.Length == 32 && active == 0 && 0 <= length
      && (length > 0 ==> length <= CommandLength(commandBuffer[0])) && length <= 12
    }

    ghost function Model(): Transmit
      requires 0 <= length <= commandBuffer.Length
      reads this, commandBuffer
    {
      rest.(command := commandBuffer[..length], active := active, badSum := checksumError, unknown := unknownCommand)
    }

    /** One more byte of a command; the result says whether it is complete. A complete
        command keeps its bytes, but its length then leaves out the check byte. */
    method AddCommandByte(b: int) returns (complete: bool)
      requires Collecting()
      modifies this`length, this`active, this`checksumError, this`unknownCommand, commandBuffer
      ensures complete == (AddByte(old(Model()), b).active > 0)
      ensures !complete ==> Collecting() && Model() == AddByte(old(Model()), b)
      ensures complete ==>
        var u := AddByte(old(Model()), b);
        && active == u.active && checksumError == u.badSum && unknownCommand == u.unknown
        && |u.command| <= commandBuffer.Length && commandBuffer[..|u.command|] == u.command
    {
      hide Sealed, CommandLength;
      KnownLengths(b);
      KnownLengths(commandBuffer[0]);
      commandBuffer[length] := b;
      length := length + 1;
      ghost var command := commandBuffer[..length];
      assert command == old(Model()).command + [b];
      var n := CommandLength(commandBuffer[0]);
      checksumError, unknownCommand := false, false;
      if n < 0 {
        unknownCommand, active := true, 1;
        return true;
      }
      if n + 1 > length {
        return false;
      }
      var checksum := CommandSum(n + 1);
      assert commandBuffer[..n + 1] == command[..n + 1];
      checksumError := checksum != 0xFF;
      active, length := 1, n;
      return true;
    }

    method CommandSum(n: int) returns (checksum: int)
      requires 0 <= n <= commandBuffer.Length
      ensures (checksum == 0xFF) == Sealed(commandBuffer[..n])
    {
      checksum := 0;
      var i := 0;
      while i < n
        invariant 0 <= i <= n && checksum == Sum(commandBuffer[..i]) % 0x100
      {
        assert commandBuffer[..i + 1][..i] == commandBuffer[..i];
        checksum := (checksum + commandBuffer[i]) % 0x100;
        i := i + 1;
      }
    }
  }

  lemma KnownLengths(command: int)
    ensures CommandLength(command) <= 12
  {
  }
}
