// Messages, facts and constants of the FBFT replica engine.
module Types {

  // A request digest. Null stands for the literal "null" that correct_chi writes into a gap.
  datatype Digest = Null | Req(id: int)

  // The block carried by a PRE-PREPARE. Unbound is the fresh variable of a "null" Chi entry.
  datatype Block = Unbound | Blk(id: int)

  datatype Request = Request(d: Digest, t: real)
  datatype Checkpoint = Checkpoint(n: nat, hash: int, t: real)

  datatype PEntry = PEntry(n: nat, d: Digest, v: nat)
  datatype QEntry = QEntry(n: nat, d: Digest, b: Block, v: nat)
  datatype ChiEntry = ChiEntry(n: nat, d: Digest, b: Block)
  datatype NuEntry = NuEntry(sender: nat, digest: int)
  datatype ViewChange = ViewChange(v: nat, hi: nat, c: int, p: seq<PEntry>, q: seq<QEntry>, sender: nat)

  // The network messages, each naming its authenticated sender.
  datatype Msg =
    | PrePrepareMsg(v: nat, n: nat, d: Digest, b: Block, sender: nat)
    | PrepareMsg(v: nat, n: nat, d: Digest, sender: nat)
    | CommitMsg(v: nat, n: nat, data: int, sender: nat)
    | ViewChangeMsg(vc: ViewChange)
    | NewViewMsg(v: nat, nu: seq<NuEntry>, chi: seq<ChiEntry>, sender: nat)

  function Sender(m: Msg): nat {
    if m.ViewChangeMsg? then m.vc.sender else m.sender
  }

  // The signature column of a logged fact: the two literals the engine writes itself, or the
  // signature received with the message, which is a function of the message.
  datatype Sig = Own | InNewView | Wire

  // Facts of the message log.
  datatype PrePrepare = PrePrepare(v: nat, n: nat, d: Digest, b: Block, sender: nat, sig: Sig)
  datatype Prepare = Prepare(v: nat, n: nat, d: Digest, sender: nat, sig: Sig)
  datatype Commit = Commit(v: nat, n: nat, data: int, sender: nat, sig: Sig)
  datatype Recovery = Recovery(v: nat, n: nat, sender: nat)
  datatype NewView = NewView(v: nat, nu: seq<NuEntry>, chi: seq<ChiEntry>)

  // size: cluster_size; blockTime: target_block_time; digest: digest_view_change.
  datatype Config = Config(size: nat, blockTime: real, digest: ViewChange -> int)

  ghost predicate ValidConfig(cfg: Config) {
    && cfg.size % 3 == 1
    && cfg.blockTime > 0.0
    && (forall a, b :: cfg.digest(a) == cfg.digest(b) ==> a == b)
  }

  function F(cfg: Config): nat {
    if cfg.size == 0 then 0 else (cfg.size - 1) / 3
  }

  function Quorum(cfg: Config): nat {
    2 * F(cfg) + 1
  }

  function Primary(cfg: Config, v: nat): nat {
    if cfg.size == 0 then 0 else v % cfg.size
  }

  function Pow2(v: nat): real {
    if v == 0 then 1.0 else 2.0 * Pow2(v - 1)
  }

  // set_timeout: half a block time, doubled once per view.
  function Timeout(cfg: Config, v: nat): real {
    Pow2(v) * (cfg.blockTime / 2.0)
  }
}
