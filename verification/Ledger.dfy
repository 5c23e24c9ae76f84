/** The worker's ledger (channels.rs): per channel, the newest authorisation and how much of it has
    been redeemed, mirrored to a file. */
module Ledger {
  import opened U64
  import opened Wrappers

  /** A pot ticket: cumulative, so the newest supersedes the rest. */
  datatype SpendTicket = SpendTicket(client: string, workerPayout: string, cumulative: u64, deadline: u64)

  /** The earlier session authorisation. */
  datatype SpendingAuth = SpendingAuth(channelId: string, client: string, cumulative: u64,
                                       metadataHash: string, sig: Option<string>)

  datatype Channel = Channel(
    channelId: string, client: string, authorised: u64, reserved: u64, latest: SpendingAuth,
    spend: Option<SpendTicket>, spendSig: Option<string>, settled: u64, updatedAt: int, contract: string)

  type Book = map<string, Channel>

  /** Who signed, as far as the worker can recover it: any function of the statement and the bytes.
      Nothing is assumed about the signature scheme. */
  datatype Signatures = Signatures(auth: SpendingAuth -> Option<string>,
                                   ticket: (SpendTicket, string) -> Option<string>)

  datatype Error = BadSignature | Expired | NotRising | BeyondReserve | NotOwner | Behind | WrongJob | WrongParty | NoDomain

  // ------------------------------------------------------------------- names

  function LowerChar(c: char): char { if 'A' <= c <= 'Z' then c + 32 as char else c }

  function Lower(s: string): string { seq(|s|, i requires 0 <= i < |s| => LowerChar(s[i])) }

  predicate SameName(a: string, b: string) { Lower(a) == Lower(b) }

  /** The ledger key of a client/payout pair on one contract. The source hashes this text; the model
      keeps the text, so that two keys are equal when their pre-images are. */
  function IdFor(client: string, payout: string, contract: string): string {
    Lower(client) + Lower(payout) + Lower(contract)
  }

  /** Two names are one when they differ in letter case at most. */
  lemma SameNameExactly(a: string, b: string)
    ensures SameName(a, b) <==>
              |a| == |b| && forall i | 0 <= i < |a| ::
                || a[i] == b[i]
                || ('A' <= a[i] <= 'Z' && b[i] as int == a[i] as int + 32)
                || ('A' <= b[i] <= 'Z' && a[i] as int == b[i] as int + 32)
  {
    assert forall i | 0 <= i < |a| :: Lower(a)[i] == LowerChar(a[i]);
    assert forall i | 0 <= i < |b| :: Lower(b)[i] == LowerChar(b[i]);
    if SameName(a, b) { assert |Lower(a)| == |Lower(b)|; }
  }

  /** The key's text is the client, the payout and the contract, in this order. */
  lemma IdNamesInOrder(client: string, payout: string, contract: string)
    ensures var id, n, m := IdFor(client, payout, contract), |client|, |client| + |payout|;
            && |id| == m + |contract| && SameName(id[..n], client) && SameName(id[n..m], payout) && SameName(id[m..], contract)
  {
    var id, n, m := IdFor(client, payout, contract), |client|, |client| + |payout|;
    assert id[..n] == Lower(client) && id[n..m] == Lower(payout) && id[m..] == Lower(contract);
    LowerTwice(client);
    LowerTwice(payout);
    LowerTwice(contract);
  }

  lemma LowerTwice(s: string)
    ensures SameName(Lower(s), s)
  {
    assert forall i | 0 <= i < |s| :: Lower(Lower(s))[i] == Lower(s)[i];
  }

  predicate IsHex(c: char) { '0' <= c <= '9' || 'a' <= c <= 'f' || 'A' <= c <= 'F' }

  /** How a wallet may be spelled and still be hashed into a digest: 20 bytes in hex, marked or not. */
  predicate IsAddress(a: string) {
    || (|a| == 40 && forall c | c in a :: IsHex(c))
    || (|a| == 42 && a[..2] == "0x" && forall c | c in a[2..] :: IsHex(c))
  }

  /** The wallet itself. */
  function Wallet(a: string): string { Lower(if |a| == 42 then a[2..] else a) }

  lemma MarkShows(a: string)
    requires IsAddress(a)
    ensures |a| >= 40 && (Lower(a)[1] == 'x' <==> |a| == 42)
  {
    if |a| == 42 {
      assert a[..2][1] == a[1] == 'x';
    } else {
      assert a[1] in a;
    }
  }

  /** Two pairs share an entry exactly when both their parties are spelled alike, letter case aside:
      a wallet spelled with and without its mark is two parties to the ledger. */
  lemma EntriesFollowTheSpelling(c1: string, p1: string, c2: string, p2: string, contract: string)
    requires IsAddress(c1) && IsAddress(p1) && IsAddress(c2) && IsAddress(p2)
    ensures IdFor(c1, p1, contract) == IdFor(c2, p2, contract) <==> SameName(c1, c2) && SameName(p1, p2)
  {
    var x, y := Lower(c1) + Lower(p1) + Lower(contract), Lower(c2) + Lower(p2) + Lower(contract);
    MarkShows(c1);
    MarkShows(c2);
    assert x[1] == Lower(c1)[1] && y[1] == Lower(c2)[1];
    if x == y {
      assert |c1| == |c2| && |p1| == |p2|;
      assert x[..|c1|] == Lower(c1) && y[..|c1|] == Lower(c2);
      assert x[|c1|..|c1| + |p1|] == Lower(p1) && y[|c1|..|c1| + |p1|] == Lower(p2);
    }
  }

  // -------------------------------------------------------------- invariants

  function Authorised(open: Book, id: string): u64 { if id in open then open[id].authorised else 0 }

  /** What the ledger keeps about every channel, in every run. */
  ghost predicate ChannelOk(id: string, c: Channel, contract: string) {
    && c.channelId == id
    && c.settled <= c.authorised <= c.reserved && c.authorised > 0
    && (c.spend.Some? ==> c.spend.value.cumulative <= c.authorised
                          && id == IdFor(c.spend.value.client, c.spend.value.workerPayout, contract))
  }

  ghost predicate BookOk(open: Book, contract: string) {
    forall id | id in open :: ChannelOk(id, open[id], contract)
  }

  /** Nobody but `client` has opened this channel. */
  predicate MayOwn(open: Book, id: string, client: string) {
    id in open ==> SameName(open[id].client, client)
  }

  /** `after` is `before` with the one channel `id` raised to `cumulative` by its own client, or opened
      by that client, keeping what was settled. */
  ghost predicate Raised(before: Book, after: Book, id: string, client: string, cumulative: u64) {
    && after.Keys == before.Keys + {id}
    && (forall k | k in before && k != id :: after[k] == before[k])
    && MayOwn(before, id, client) && after[id].client == client
    && after[id].authorised == cumulative > Authorised(before, id)
    && after[id].settled == (if id in before then before[id].settled else 0)
    && after[id].reserved == Max(cumulative, if id in before then before[id].reserved else 0)
  }

  // ------------------------------------------------------- what is accepted

  /** `SpendingAuth.check`, in the source's order. */
  function CheckAuth(s: Signatures, auth: SpendingAuth, already: u64, reserved: u64): Result<u64, Error> {
    var signer := if auth.sig.Some? then s.auth(auth) else None;
    if signer.None? || !SameName(signer.value, auth.client) then Err(BadSignature)
    else if auth.cumulative <= already then Err(NotRising)
    else if auth.cumulative > reserved then Err(BeyondReserve)
    else Ok(auth.cumulative - already)
  }

  /** The ticket is the key's own statement, and its time is not up. */
  predicate SignedBy(s: Signatures, t: SpendTicket, sig: string, key: string, now: u64) {
    now < t.deadline && s.ticket(t, sig).Some? && SameName(s.ticket(t, sig).value, key)
  }

  /** `SpendTicket.check`: unexpired, and signed by the key the contract will check. */
  function CheckTicket(s: Signatures, t: SpendTicket, sig: string, appKey: string, now: u64): (r: Option<Error>)
    ensures r.None? <==> now < t.deadline && s.ticket(t, sig).Some? && SameName(s.ticket(t, sig).value, appKey)
    ensures r.Some? ==> r.value == if t.deadline <= now then Expired else BadSignature
  {
    if t.deadline <= now then Some(Expired) else
    var signer := s.ticket(t, sig);
    if signer.None? || !SameName(signer.value, appKey) then Some(BadSignature) else None
  }

  /** When a ticket is banked for a job that earned `delta`. */
  predicate Bankable(open: Book, id: string, t: SpendTicket, delta: u64) {
    && MayOwn(open, id, t.client)
    && t.cumulative >= SatAdd(Authorised(open, id), delta)
    && t.cumulative > Authorised(open, id)
  }

  // ---------------------------------------------------------------- the file

  /** What a path may hold: nothing, half a write, or a whole ledger. */
  datatype File = Missing | Torn | Whole(list: seq<Channel>)

  /** The ledger file and the file written beside it. */
  datatype Disk = Disk(main: File, temp: File)

  ghost predicate Listing(list: seq<Channel>, open: Book) {
    && (forall i | 0 <= i < |list| :: list[i].channelId in open && open[list[i].channelId] == list[i])
    && (forall id | id in open :: open[id] in list)
  }

  /** One file-system effect of `write`: the temporary file may be cut short by an error or a crash,
      and only a whole one is ever moved into place. */
  ghost predicate WriteStep(d: Disk, d': Disk, open: Book) {
    || (d'.main == d.main && d'.temp == Torn)
    || (d'.main == d.main && d'.temp.Whole? && Listing(d'.temp.list, open))
    || (d.temp.Whole? && Listing(d.temp.list, open) && d' == Disk(d.temp, Missing))
  }

  /** What is kept of an entry on start: see `load`. */
  predicate Keeps(c: Channel, contract: string, now: u64) {
    if c.contract == "" then c.spend.None? || c.spend.value.deadline >= now
    else SameName(c.contract, contract)
  }

  function Collect(list: seq<Channel>, contract: string, now: u64): Book {
    if list == [] then map[] else
    var rest := Collect(list[..|list| - 1], contract, now);
    var c := list[|list| - 1];
    if Keeps(c, contract, now) then rest[c.channelId := c] else rest
  }

  /** A missing or unreadable file is an empty ledger. */
  function LoadBook(f: File, contract: string, now: u64): Book {
    if f.Whole? then Collect(f.list, contract, now) else map[]
  }

  lemma {:induction false} CollectHolds(list: seq<Channel>, open: Book, contract: string, now: u64)
    requires forall i | 0 <= i < |list| :: list[i].channelId in open && open[list[i].channelId] == list[i]
    ensures forall id | id in Collect(list, contract, now) ::
              id in open && Collect(list, contract, now)[id] == open[id] && Keeps(open[id], contract, now) && open[id] in list
    ensures forall c | c in list && Keeps(c, contract, now) :: c.channelId in Collect(list, contract, now)
  {
    if list != [] {
      CollectHolds(list[..|list| - 1], open, contract, now);
    }
  }

  /** A reload gives back the ledger that was written, less the entries it may not keep; with every
      entry under this node's own contract, that is all of it. */
  lemma LoadUndoesWrite(list: seq<Channel>, open: Book, contract: string, now: u64)
    requires Listing(list, open)
    requires forall id | id in open :: open[id].channelId == id
    ensures LoadBook(Whole(list), contract, now) == map id | id in open && Keeps(open[id], contract, now) :: open[id]
    ensures (forall id | id in open :: open[id].contract == contract != "") ==> LoadBook(Whole(list), contract, now) == open
  {
    CollectHolds(list, open, contract, now);
    forall id | id in open && Keeps(open[id], contract, now)
      ensures id in Collect(list, contract, now)
    {
      assert open[id] in list;
    }
  }

  /** Whatever is on disk was whole, and was the ledger of some acceptance before: `past` lists them. */
  ghost predicate DiskOk(d: Disk, past: seq<Book>) {
    && d.main != Torn
    && (d.main.Whole? ==> exists b | b in past :: Listing(d.main.list, b))
  }

  /** A run of `write`, cut short anywhere, leaves a complete ledger: the one before or this one. */
  lemma {:induction false} CrashLeavesAWholeLedger(disks: seq<Disk>, open: Book, past: seq<Book>)
    requires |disks| > 0 && DiskOk(disks[0], past)
    requires forall i | 0 <= i < |disks| - 1 :: WriteStep(disks[i], disks[i + 1], open)
    ensures DiskOk(disks[|disks| - 1], past + [open])
    ensures disks[|disks| - 1].main == disks[0].main
            || (disks[|disks| - 1].main.Whole? && Listing(disks[|disks| - 1].main.list, open))
  {
    var n := |disks| - 1;
    if n == 0 {
      assert forall b | b in past :: b in past + [open];
    } else {
      CrashLeavesAWholeLedger(disks[..n], open, past);
      assert WriteStep(disks[n - 1], disks[n], open);
      assert open in past + [open];
    }
  }

  // ----------------------------------------------------------- runs of moves

  /** One change of the ledger, with what it credits. */
  datatype Move = Auth(auth: SpendingAuth, earned: u64)
                | Bank(ticket: SpendTicket, expected: u64)
                | Redeem(id: string, upto: u64)

  ghost predicate BookStep(b: Book, b': Book, m: Move, contract: string) {
    match m
    case Auth(auth, earned) =>
      && Raised(b, b', auth.channelId, auth.client, auth.cumulative)
      && earned == auth.cumulative - Authorised(b, auth.channelId)
      && b'[auth.channelId].channelId == auth.channelId
      && b'[auth.channelId].spend == (if auth.channelId in b then b[auth.channelId].spend else None)
    case Bank(t, expected) =>
      var id := IdFor(t.client, t.workerPayout, contract);
      && Bankable(b, id, t, expected)
      && Raised(b, b', id, t.client, t.cumulative)
      && b'[id].channelId == id && b'[id].spend == Some(t)
    case Redeem(id, upto) =>
      b' == if id in b then b[id := b[id].(settled := Max(b[id].settled, upto))] else b
  }

  function MovedId(m: Move, contract: string): string {
    match m
    case Auth(auth, _) => auth.channelId
    case Bank(t, _) => IdFor(t.client, t.workerPayout, contract)
    case Redeem(id, _) => id
  }

  function Credit(m: Move): u64 {
    match m
    case Auth(_, earned) => earned
    case Bank(_, expected) => expected
    case Redeem(_, _) => 0
  }

  /** Every move keeps the ledger's invariant; a redemption needs to be of money that was authorised. */
  lemma BookStepKeepsOk(b: Book, b': Book, m: Move, contract: string)
    requires BookOk(b, contract) && BookStep(b, b', m, contract)
    requires m.Redeem? && m.id in b ==> m.upto <= b[m.id].authorised
    ensures BookOk(b', contract)
  {
    var id := MovedId(m, contract);
    forall k | k in b' ensures ChannelOk(k, b'[k], contract) {
      assert k != id ==> k in b && b'[k] == b[k];
    }
  }

  /** What one banked ticket credits is within what it raised exactly when adding the credit to what
      was authorised before does not overflow: past that, the saturating add lets a ticket through. */
  lemma CreditWithinRise(b: Book, b': Book, m: Move, contract: string)
    requires BookStep(b, b', m, contract)
    ensures var id := MovedId(m, contract);
            Authorised(b, id) + Credit(m) <= Authorised(b', id) <==> Authorised(b, id) + Credit(m) <= MAX
  {}

  /** A ledger holding a ticket one below the top banks a credit of ten against a rise of one. */
  lemma SaturationOvercredits()
    ensures exists b: Book, b': Book, m: Move ::
              BookStep(b, b', m, "") && Authorised(b', "cp") - Authorised(b, "cp") == 1 && Credit(m) == 10
  {
    var auth := SpendingAuth("cp", "c", 0, "", None);
    var c := Channel("cp", "c", MAX - 1, MAX - 1, auth, None, None, 0, 0, "");
    var t := SpendTicket("c", "p", MAX, 1);
    assert IdFor("c", "p", "") == "cp";
    var c' := c.(authorised := MAX, reserved := MAX, spend := Some(t));
    assert BookStep(map["cp" := c], map["cp" := c'], Bank(t, 10), "");
  }

  ghost predicate BookRun(books: seq<Book>, moves: seq<Move>, contract: string) {
    && |books| == |moves| + 1
    && forall i | 0 <= i < |moves| :: BookStep(books[i], books[i + 1], moves[i], contract)
  }

  ghost function CreditOf(moves: seq<Move>, id: string, contract: string): nat {
    if moves == [] then 0 else
    var m := moves[|moves| - 1];
    CreditOf(moves[..|moves| - 1], id, contract) + if MovedId(m, contract) == id then Credit(m) else 0
  }

  /** Over any interleaving of moves on any number of channels, what a channel credited in all is at
      most what its authorisation rose by. */
  lemma {:induction false} CreditsAreConserved(books: seq<Book>, moves: seq<Move>, id: string, contract: string)
    requires BookRun(books, moves, contract)
    requires forall i | 0 <= i < |moves| && MovedId(moves[i], contract) == id ::
               Authorised(books[i], id) + Credit(moves[i]) <= MAX
    ensures Authorised(books[0], id) + CreditOf(moves, id, contract) <= Authorised(books[|moves|], id)
  {
    if moves != [] {
      var n := |moves| - 1;
      CreditsAreConserved(books[..|moves|], moves[..n], id, contract);
      assert BookStep(books[n], books[n + 1], moves[n], contract);
      if MovedId(moves[n], contract) == id {
        CreditWithinRise(books[n], books[n + 1], moves[n], contract);
      }
    }
  }

  /** One wallet signed ten once for one payout, and two entries credited ten each. */
  ghost predicate CreditedTwice(books: seq<Book>, t: SpendTicket, u: SpendTicket, contract: string) {
    && BookRun(books, [Bank(t, 10), Bank(u, 10)], contract) && books[0] == map[]
    && Wallet(t.client) == Wallet(u.client) && t.workerPayout == u.workerPayout && t.cumulative == u.cumulative == 10
    && Credit(Bank(t, 10)) + Credit(Bank(u, 10)) == 20
  }

  /** Conservation is per entry only. One wallet, spelled both ways, signs one amount for one payout,
      and each of the two entries credits it. */
  lemma TwoSpellingsAreCreditedTwice(h: string, payout: string, contract: string)
    requires |h| == 40 && IsAddress(h) && IsAddress(payout)
    ensures exists books: seq<Book>, t: SpendTicket, u: SpendTicket :: CreditedTwice(books, t, u, contract)
  {
    var marked := "0x" + h;
    assert marked[2..] == h && marked[..2] == "0x";
    EntriesFollowTheSpelling(marked, payout, h, payout, contract);
    var t, u := SpendTicket(marked, payout, 10, 1), SpendTicket(h, payout, 10, 1);
    var a, b := IdFor(marked, payout, contract), IdFor(h, payout, contract);
    var first := Channel(a, marked, 10, 10, SpendingAuth(a, marked, 10, "", None), Some(t), None, 0, 0, contract);
    var second := Channel(b, h, 10, 10, SpendingAuth(b, h, 10, "", None), Some(u), None, 0, 0, contract);
    var one: Book := map[a := first];
    var two: Book := one[b := second];
    TwoBanks(one, two, t, u, contract);
    assert CreditedTwice([map[], one, two], t, u, contract);
  }

  lemma TwoBanks(one: Book, two: Book, t: SpendTicket, u: SpendTicket, contract: string)
    requires BookStep(map[], one, Bank(t, 10), contract) && BookStep(one, two, Bank(u, 10), contract)
    ensures BookRun([map[], one, two], [Bank(t, 10), Bank(u, 10)], contract)
  {}

  // ------------------------------------------------------------------ owners

  lemma StepKeepsOwner(b: Book, b': Book, m: Move, contract: string, id: string)
    requires BookStep(b, b', m, contract) && id in b
    ensures id in b' && SameName(b'[id].client, b[id].client)
  {}

  /** Over any run a channel stays with the client that opened it, and no ticket of another client
      can ever be banked on it. */
  lemma {:induction false} OwnerStays(books: seq<Book>, moves: seq<Move>, id: string, contract: string)
    requires BookRun(books, moves, contract) && id in books[0]
    ensures id in books[|moves|] && SameName(books[|moves|][id].client, books[0][id].client)
    ensures forall t: SpendTicket, delta: u64 | !SameName(t.client, books[0][id].client) ::
              !Bankable(books[|moves|], id, t, delta)
  {
    if moves != [] {
      var n := |moves| - 1;
      OwnerStays(books[..|moves|], moves[..n], id, contract);
      StepKeepsOwner(books[n], books[n + 1], moves[n], contract, id);
    }
  }

  /** The earlier authorisation may name any channel, so a stranger can open a pair's entry first: from
      then on whatever the pair's own client signs is refused, in every later state. */
  lemma StrangerTakesTheEntry(client: string, payout: string, contract: string, stranger: string)
    requires !SameName(client, stranger)
    ensures exists m: Move, taken: Book ::
              && m.Auth? && m.auth.client == stranger && BookStep(map[], taken, m, contract) && BookOk(taken, contract)
              && forall t: SpendTicket, delta: u64 | t.client == client && t.workerPayout == payout ::
                   !Bankable(taken, IdFor(client, payout, contract), t, delta)
  {
    var id := IdFor(client, payout, contract);
    var auth := SpendingAuth(id, stranger, 1, "", None);
    var c := Channel(id, stranger, 1, 1, auth, None, None, 0, 0, contract);
    assert BookStep(map[], map[id := c], Auth(auth, 1), contract);
    assert BookOk(map[id := c], contract);
  }

  // --------------------------------------------------------------- the class

  /** How the file system answers one `write`. */
  datatype Io = Works | WriteFails | RenameFails

  function Written(d: Disk, list: seq<Channel>, io: Io): Disk {
    match io
    case Works => Disk(Whole(list), Missing)
    case WriteFails => Disk(d.main, Torn)
    case RenameFails => Disk(d.main, Whole(list))
  }

  /** What one `write` leaves is what its steps leave, cut where the file system failed. */
  lemma WriteFollowsTheSteps(d: Disk, list: seq<Channel>, open: Book, io: Io)
    requires Listing(list, open)
    ensures var beside := Disk(d.main, Whole(list));
            match io
            case Works => WriteStep(d, beside, open) && WriteStep(beside, Written(d, list, io), open) && Written(d, list, io).main == Whole(list)
            case WriteFails => WriteStep(d, Written(d, list, io), open) && Written(d, list, io) == Disk(d.main, Torn)
            case RenameFails => WriteStep(d, Written(d, list, io), open) && Written(d, list, io) == beside
  {}

  class Channels {
    const contract: string
    const signatures: Signatures
    var open: Book
    var disk: Disk

    ghost predicate Valid() reads this { BookOk(open, contract) }

    function AuthorisedFor(client: string, payout: string): u64 reads this {
      Authorised(open, IdFor(client, payout, contract))
    }

    constructor Load(contract: string, signatures: Signatures, file: File, now: u64, io: Io)
      ensures this.contract == contract && this.signatures == signatures
      ensures open == LoadBook(file, contract, now)
      // What is kept is what can settle here, and what an older version recorded while its ticket lasts.
      ensures forall id | id in open :: open[id].channelId == id && file.Whole? && open[id] in file.list && CanSettle(open[id], contract, now)
      ensures file.Whole? ==> forall c | c in file.list && CanSettle(c, contract, now) :: c.channelId in open
      ensures disk.main == file
              || (disk.main.Whole? && Listing(disk.main.list, open) && file.Whole?
                  && exists i :: 0 <= i < |file.list| && !Keeps(file.list[i], contract, now))
    {
      this.contract := contract;
      this.signatures := signatures;
      open := LoadBook(file, contract, now);
      disk := Disk(file, Missing);
      if file.Whole? { CollectKeeps(file.list, contract, now); }
      new;
      if file.Whole? {
        var left := false;
        for i := 0 to |file.list|
          invariant left ==> exists k :: 0 <= k < i && !Keeps(file.list[k], contract, now)
          invariant disk == Disk(file, Missing)
        {
          if !Keeps(file.list[i], contract, now) { left := true; }
        }
        if left {
          CollectKeys(file.list, contract, now);
          Write(io);
        }
      }
    }

    /** Written whole beside the ledger, then moved into place. */
    method Write(io: Io)
      requires forall id | id in open :: open[id].channelId == id
      modifies this`disk
      ensures exists list :: Listing(list, open) && disk == Written(old(disk), list, io)
    {
      var list: seq<Channel> := [];
      var left := open.Keys;
      while left != {}
        invariant left <= open.Keys && disk == old(disk)
        invariant forall i | 0 <= i < |list| :: list[i].channelId in open && open[list[i].channelId] == list[i]
        invariant forall id | id in open && id !in left :: open[id] in list
        decreases left
      {
        var id :| id in left;
        list := list + [open[id]];
        left := left - {id};
      }
      disk := Written(disk, list, io);
    }

    /** Check an authorisation and record it, returning what this job earns. */
    method Accept(auth: SpendingAuth, now: int, io: Io) returns (r: Result<u64, Error>)
      requires Valid()
      modifies this
      ensures Valid()
      ensures r.Ok? <==>
              && auth.sig.Some? && signatures.auth(auth).Some?
              && SameName(signatures.auth(auth).value, auth.client)
              && auth.cumulative > Authorised(old(open), auth.channelId)
              && MayOwn(old(open), auth.channelId, auth.client)
      ensures r.Err? ==> open == old(open) && disk == old(disk) && r.error != BeyondReserve
      ensures r.Ok? ==> BookStep(old(open), open, Auth(auth, r.value), contract)
      ensures r.Ok? ==> var c := open[auth.channelId];
                        c.latest == auth && c.updatedAt == now && c.contract == contract
                        && c.spendSig == if auth.channelId in old(open) then old(open)[auth.channelId].spendSig else None
      ensures r.Ok? ==> exists list :: Listing(list, open) && disk == Written(old(disk), list, io)
    {
      var id := auth.channelId;
      var already := Authorised(open, id);
      var reserved := Max(if id in open then open[id].reserved else auth.cumulative, auth.cumulative);
      var checked := CheckAuth(signatures, auth, already, reserved);
      if checked.Err? { return checked; }
      if !MayOwn(open, id, auth.client) { return Err(NotOwner); }
      var kept := if id in open then open[id] else
                  Channel(id, auth.client, 0, 0, auth, None, None, 0, now, contract);
      open := open[id := kept.(channelId := id, client := auth.client, authorised := auth.cumulative, reserved := reserved,
                               latest := auth, updatedAt := now, contract := contract)];
      BookStepKeepsOk(old(open), open, Auth(auth, checked.value), contract);
      Write(io);
      return checked;
    }

    /** Bank a pot ticket for a job that earned `expected`. */
    method AcceptSpend(t: SpendTicket, sig: string, appKey: string, expected: u64, now: int, io: Io)
      returns (r: Result<u64, Error>)
      requires Valid() && now <= MAX
      modifies this
      ensures Valid()
      ensures r.Ok? <==>
              var id := IdFor(t.client, t.workerPayout, contract); var already := Authorised(old(open), id);
              && now < t.deadline && t.deadline > 0
              && signatures.ticket(t, sig).Some? && SameName(signatures.ticket(t, sig).value, appKey)
              && (id in old(open) ==> SameName(old(open)[id].client, t.client))
              && t.cumulative > already && (t.cumulative - already >= expected || t.cumulative == MAX)
      ensures r.Err? ==> open == old(open) && disk == old(disk)
      ensures r == Err(Expired) <==> t.deadline <= Max(now, 0)
      ensures r.Ok? ==> r.value == expected && BookStep(old(open), open, Bank(t, expected), contract)
      ensures r.Ok? ==> var id := IdFor(t.client, t.workerPayout, contract); var c := open[id];
                        c.spendSig == Some(sig) && c.updatedAt == now && c.contract == contract
                        && c.latest == if id in old(open) then old(open)[id].latest
                                       else SpendingAuth(id, t.client, t.cumulative, "0x0", None)
      ensures r.Ok? ==> exists list :: Listing(list, open) && disk == Written(old(disk), list, io)
    {
      var bad := CheckTicket(signatures, t, sig, appKey, Max(now, 0));
      if bad.Some? { return Err(bad.value); }
      var id := IdFor(t.client, t.workerPayout, contract);
      if !MayOwn(open, id, t.client) { return Err(NotOwner); }
      var already := Authorised(open, id);
      if t.cumulative < SatAdd(already, expected) { return Err(Behind); }
      if t.cumulative <= already { return Err(NotRising); }
      var kept := if id in open then open[id] else
                  Channel(id, t.client, 0, t.cumulative, SpendingAuth(id, t.client, t.cumulative, "0x0", None), None, None, 0, now, contract);
      open := open[id := kept.(channelId := id, client := t.client, authorised := t.cumulative,
                               reserved := Max(kept.reserved, t.cumulative),
                               spend := Some(t), spendSig := Some(sig), updatedAt := now, contract := contract)];
      BookStepKeepsOk(old(open), open, Bank(t, expected), contract);
      Write(io);
      return Ok(expected);
    }

    /** Record what a settlement transaction actually paid. */
    method Settled(id: string, upto: u64, io: Io)
      requires Valid()
      modifies this
      ensures BookStep(old(open), open, Redeem(id, upto), contract)
      ensures (id in old(open) ==> upto <= old(open)[id].authorised) ==> Valid()
      ensures exists list :: Listing(list, open) && disk == Written(old(disk), list, io)
    {
      if id in open {
        open := open[id := open[id].(settled := Max(open[id].settled, upto))];
      }
      if id in old(open) ==> upto <= old(open)[id].authorised {
        BookStepKeepsOk(old(open), open, Redeem(id, upto), contract);
      }
      Write(io);
    }
  }

  /** Recorded under this contract, or under none and not yet past its ticket's deadline. */
  predicate CanSettle(c: Channel, contract: string, now: u64) {
    || (c.contract != "" && SameName(c.contract, contract))
    || (c.contract == "" && (c.spend.Some? ==> now <= c.spend.value.deadline))
  }

  lemma {:induction false} CollectKeeps(list: seq<Channel>, contract: string, now: u64)
    ensures forall id | id in Collect(list, contract, now) ::
              var c := Collect(list, contract, now)[id]; c.channelId == id && c in list && CanSettle(c, contract, now)
    ensures forall c | c in list && CanSettle(c, contract, now) :: c.channelId in Collect(list, contract, now)
  {
    if list != [] {
      CollectKeeps(list[..|list| - 1], contract, now);
    }
  }

  lemma {:induction false} CollectKeys(list: seq<Channel>, contract: string, now: u64)
    ensures forall id | id in Collect(list, contract, now) :: Collect(list, contract, now)[id].channelId == id
  {
    if list != [] { CollectKeys(list[..|list| - 1], contract, now); }
  }
}
