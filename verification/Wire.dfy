/** The printed form of an ISIS message (mp1/message.py): blank-separated words padded
    with blanks to 256 characters, read back 256 characters at a time. */
module Wire {
  import opened Options
  import opened IsisQueue

  const FRAME: nat := 256

  datatype Kind = PROPOSE | AGREE

  /** A MESSAGE has no priority yet; a priority is counted in tenths. */
  datatype Packet =
    | Fresh(id: string, tx: Tx, node: int)
    | Ranked(kind: Kind, id: string, tx: Tx, prio: nat, node: int)

  // ------------------------------------------------------------------ numbers

  function Digit(d: nat): char
    requires d < 10
  {
    "0123456789"[d]
  }

  function Digits(n: nat): string {
    if n < 10 then [Digit(n)] else Digits(n / 10) + [Digit(n % 10)]
  }

  /** str(n) */
  function Show(n: int): string {
    if n < 0 then "-" + Digits(-n) else Digits(n)
  }

  predicate IsDigit(c: char) { '0' <= c <= '9' }

  function DigitValue(c: char): nat
    requires IsDigit(c)
  {
    c as int - '0' as int
  }

  function Value(w: string): nat
    requires forall i :: 0 <= i < |w| ==> IsDigit(w[i])
  {
    if w == [] then 0 else 10 * Value(w[..|w| - 1]) + DigitValue(w[|w| - 1])
  }

  predicate Numeral(w: string) {
    w != [] && forall i :: 0 <= i < |w| ==> IsDigit(w[i])
  }

  /** int(w), for plain decimal words. */
  function Int(w: string): Option<int> {
    if Numeral(w) then
      var n: int := Value(w);
      Some(n)
    else if w != [] && w[0] == '-' && Numeral(w[1..]) then
      var n: int := Value(w[1..]);
      Some(-n)
    else None
  }

  /** str(priority): whole tenths print with one digit after the point. */
  function ShowTenths(n: nat): string {
    Digits(n / 10) + "." + [Digit(n % 10)]
  }

  /** float(w), for words with one digit after the point. */
  function Tenths(w: string): Option<nat> {
    if |w| > 2 && w[|w| - 2] == '.' && Numeral(w[..|w| - 2]) && IsDigit(w[|w| - 1]) then
      Some(10 * Value(w[..|w| - 2]) + DigitValue(w[|w| - 1]))
    else None
  }

  // ------------------------------------------------------------------- words

  predicate Blank(c: char) { c == ' ' }

  predicate Word(w: string) {
    forall i :: 0 <= i < |w| ==> !Blank(w[i])
  }

  function Join(ws: seq<string>): string
    requires ws != []
  {
    if |ws| == 1 then ws[0] else ws[0] + " " + Join(ws[1..])
  }

  /** The length of the first word of s. */
  function FirstWord(s: string): (k: nat)
    ensures k <= |s| && (forall i :: 0 <= i < k ==> !Blank(s[i])) && (k < |s| ==> Blank(s[k]))
  {
    if s == [] || Blank(s[0]) then 0 else 1 + FirstWord(s[1..])
  }

  /** s.split(' ') */
  function Split(s: string): (ws: seq<string>)
    ensures ws != []
    decreases |s|
  {
    var k := FirstWord(s);
    if k == |s| then [s] else [s[..k]] + Split(s[k + 1..])
  }

  /** s.strip(), for the blanks that pad a frame. */
  function StripRight(s: string): string {
    if s != [] && Blank(s[|s| - 1]) then StripRight(s[..|s| - 1]) else s
  }

  function StripLeft(s: string): string {
    if s != [] && Blank(s[0]) then StripLeft(s[1..]) else s
  }

  function Strip(s: string): string { StripLeft(StripRight(s)) }

  // ------------------------------------------------------- printing and parsing

  function KindWord(k: Kind): string {
    if k.PROPOSE? then "PROPOSE" else "AGREE"
  }

  function TxWords(tx: Tx): seq<string> {
    match tx
    case Deposit(account, amount) => ["DEPOSIT", account, Show(amount)]
    case Transfer(source, target, amount) => ["TRANSFER", source, target, Show(amount)]
  }

  function Words(p: Packet): (ws: seq<string>)
    ensures |ws| >= 6
  {
    match p
    case Fresh(id, tx, node) => ["MESSAGE", id] + TxWords(tx) + [Show(node)]
    case Ranked(kind, id, tx, prio, node) => [KindWord(kind), id] + TxWords(tx) + [ShowTenths(prio), Show(node)]
  }

  function Text(p: Packet): string { Join(Words(p)) }

  function Blanks(n: nat): string { seq(n, _ => ' ') }

  /** construct_string */
  function Frame(p: Packet): string {
    var s := Text(p);
    if |s| < FRAME then s + Blanks(FRAME - |s|) else s
  }

  /** The transaction at word 2, and the number of words it takes. */
  function ParseTx(ws: seq<string>): Option<(Tx, nat)> {
    if |ws| >= 5 && ws[2] == "DEPOSIT" && Int(ws[4]).Some? then Some((Deposit(ws[3], Int(ws[4]).value), 3))
    else if |ws| >= 6 && ws[2] == "TRANSFER" && Int(ws[5]).Some? then
      Some((Transfer(ws[3], ws[4], Int(ws[5]).value), 4))
    else None
  }

  /** process_message on the words of a frame; None where it gives up. */
  function Parse(ws: seq<string>): Option<Packet> {
    match ParseTx(ws)
    case None => None
    case Some((tx, n)) =>
      if ws[0] == "MESSAGE" then
        if |ws| > 2 + n && Int(ws[2 + n]).Some? then Some(Fresh(ws[1], tx, Int(ws[2 + n]).value)) else None
      else if (ws[0] == "PROPOSE" || ws[0] == "AGREE") && |ws| > 3 + n && Tenths(ws[2 + n]).Some?
          && Int(ws[3 + n]).Some? then
        Some(Ranked(if ws[0] == "PROPOSE" then PROPOSE else AGREE, ws[1], tx,
                    Tenths(ws[2 + n]).value, Int(ws[3 + n]).value))
      else None
  }

  function ParseFrame(f: string): Option<Packet> { Parse(Split(Strip(f))) }

  // ------------------------------------------------------------------ sending

  function Stream(ps: seq<Packet>): string {
    if ps == [] then "" else Frame(ps[0]) + Stream(ps[1..])
  }

  /** The pieces read 256 characters at a time. */
  function Cut(stream: string): seq<string> {
    if |stream| <= FRAME then (if stream == "" then [] else [stream])
    else [stream[..FRAME]] + Cut(stream[FRAME..])
  }

  /** The pieces that are not blank. */
  function Filled(pieces: seq<string>): seq<string> {
    if pieces == [] then [] else (if Strip(pieces[0]) == "" then [] else [pieces[0]]) + Filled(pieces[1..])
  }

  /** The receive loop: a blank piece is skipped, and a piece that does not parse ends
      the program. */
  method Receive(stream: string) returns (ps: seq<Packet>, ok: bool)
    ensures var f := Filled(Cut(stream));
            && |ps| <= |f| && (forall k :: 0 <= k < |ps| ==> ParseFrame(f[k]) == Some(ps[k]))
            && if ok then |ps| == |f| else |ps| < |f| && ParseFrame(f[|ps|]) == None
  {
    ps, ok := [], true;
    var rest := stream;
    ghost var cut := [];
    while rest != ""
      invariant Progress(stream, cut, ps, rest)
      decreases |rest|
    {
      var k := if FRAME <= |rest| then FRAME else |rest|;
      var piece := rest[..k];
      NextPiece(stream, cut, ps, rest, k);
      rest := rest[k..];
      if Strip(piece) == "" {
        continue;
      }
      var p := ParseFrame(piece);
      if p.None? {
        return ps, false;
      }
      cut, ps := cut + [piece], ps + [p.value];
    }
  }

  /** What has been read so far, without its blank pieces, is parsed. */
  ghost predicate Progress(stream: string, cut: seq<string>, ps: seq<Packet>, rest: string) {
    Filled(Cut(stream)) == cut + Filled(Cut(rest)) && AllParsed(cut, ps)
  }

  lemma NextPiece(stream: string, cut: seq<string>, ps: seq<Packet>, rest: string, k: nat)
    requires Progress(stream, cut, ps, rest) && rest != "" && k == if FRAME <= |rest| then FRAME else |rest|
    ensures Strip(rest[..k]) == "" ==> Progress(stream, cut, ps, rest[k..])
    ensures Strip(rest[..k]) != "" ==> |ps| < |Filled(Cut(stream))| && Filled(Cut(stream))[|ps|] == rest[..k]
    ensures forall p :: Strip(rest[..k]) != "" && ParseFrame(rest[..k]) == Some(p) ==>
                          Progress(stream, cut + [rest[..k]], ps + [p], rest[k..])
  {
    FilledHead(rest, k);
    if Strip(rest[..k]) == "" {
      assert [] + Filled(Cut(rest[k..])) == Filled(Cut(rest[k..]));
    } else {
      assert cut + ([rest[..k]] + Filled(Cut(rest[k..]))) == cut + [rest[..k]] + Filled(Cut(rest[k..]));
    }
    forall p | Strip(rest[..k]) != "" && ParseFrame(rest[..k]) == Some(p)
      ensures Progress(stream, cut + [rest[..k]], ps + [p], rest[k..])
    {
      ParsedMore(cut, ps, rest[..k], p);
    }
  }

  lemma FilledHead(stream: string, k: nat)
    requires stream != "" && k == if FRAME <= |stream| then FRAME else |stream|
    ensures Filled(Cut(stream)) == (if Strip(stream[..k]) == "" then [] else [stream[..k]]) + Filled(Cut(stream[k..]))
  {
    CutHead(stream, k);
    assert ([stream[..k]] + Cut(stream[k..]))[1..] == Cut(stream[k..]);
  }

  ghost predicate AllParsed(cut: seq<string>, ps: seq<Packet>) {
    |ps| == |cut| && forall k :: 0 <= k < |ps| ==> ParseFrame(cut[k]) == Some(ps[k])
  }

  lemma ParsedMore(cut: seq<string>, ps: seq<Packet>, f: string, p: Packet)
    requires AllParsed(cut, ps) && ParseFrame(f) == Some(p)
    ensures AllParsed(cut + [f], ps + [p])
  {
  }

  lemma CutHead(stream: string, k: nat)
    requires stream != "" && k == if FRAME <= |stream| then FRAME else |stream|
    ensures Cut(stream) == [stream[..k]] + Cut(stream[k..])
  {
    if |stream| <= FRAME {
      assert stream[..k] == stream && stream[k..] == "";
    }
  }

  // -------------------------------------------------------------- round trips

  lemma {:induction false} DigitsValue(n: nat)
    ensures Numeral(Digits(n)) && Value(Digits(n)) == n
  {
    if n < 10 {
      assert Digits(n)[..0] == [];
      DigitChar(n);
    } else {
      DigitsValue(n / 10);
      DigitChar(n % 10);
      var w := Digits(n);
      assert w[..|w| - 1] == Digits(n / 10);
    }
  }

  lemma DigitChar(d: nat)
    requires d < 10
    ensures IsDigit(Digit(d)) && DigitValue(Digit(d)) == d
  {
  }

  lemma NaturalInt(w: string)
    requires Numeral(w)
    ensures Int(w) == Some(Value(w) as int) && Word(w)
  {
  }

  lemma IntShow(n: int)
    ensures Int(Show(n)) == Some(n) && Show(n) != [] && Word(Show(n))
  {
    var m: nat := if n < 0 then -n else n;
    DigitsValue(m);
    NaturalInt(Digits(m));
    NegativeInt(Digits(m));
  }

  lemma NegativeInt(w: string)
    requires Numeral(w)
    ensures Int("-" + w) == Some(-(Value(w) as int)) && Word("-" + w)
  {
    var s := "-" + w;
    assert s[0] == '-' && s[1..] == w;
    assert !IsDigit(s[0]);
  }

  lemma TenthsShow(n: nat)
    ensures Tenths(ShowTenths(n)) == Some(n) && Word(ShowTenths(n))
  {
    DigitsValue(n / 10);
    DigitChar(n % 10);
    NaturalInt(Digits(n / 10));
    var w := ShowTenths(n);
    assert w[..|w| - 2] == Digits(n / 10);
  }

  lemma SplitFirst(w: string, rest: string)
    requires Word(w)
    ensures Split(w) == [w] && Split(w + " " + rest) == [w] + Split(rest)
  {
    var s := w + " " + rest;
    WordLength(w, |w|);
    assert s[..|w|] == w && s[|w|] == ' ' && s[|w| + 1..] == rest;
    WordLength(s, |w|);
  }

  lemma {:induction false} SplitJoin(ws: seq<string>)
    requires ws != [] && forall w :: w in ws ==> Word(w)
    ensures Split(Join(ws)) == ws
  {
    assert ws[0] in ws;
    if |ws| == 1 {
      SplitFirst(ws[0], "");
    } else {
      SplitJoin(ws[1..]);
      SplitFirst(ws[0], Join(ws[1..]));
    }
  }

  lemma {:induction false} WordLength(s: string, k: nat)
    requires k <= |s| && (forall i :: 0 <= i < k ==> !Blank(s[i])) && (k < |s| ==> Blank(s[k]))
    ensures FirstWord(s) == k
  {
    if k > 0 {
      WordLength(s[1..], k - 1);
    }
  }

  lemma {:induction false} StripPadding(s: string, n: nat)
    requires s != [] && !Blank(s[|s| - 1]) && !Blank(s[0])
    ensures Strip(s + Blanks(n)) == s
  {
    PaddingGone(s, n);
  }

  lemma {:induction false} PaddingGone(s: string, n: nat)
    requires s != [] && !Blank(s[|s| - 1])
    ensures StripRight(s + Blanks(n)) == s
  {
    if n == 0 {
      assert s + Blanks(0) == s;
    } else {
      PaddingGone(s, n - 1);
      var t := s + Blanks(n);
      assert t[..|t| - 1] == s + Blanks(n - 1);
    }
  }

  /** The fields hold no blank. */
  predicate Plainly(p: Packet) {
    Word(p.id) &&
    match p.tx
    case Deposit(account, _) => Word(account)
    case Transfer(source, target, _) => Word(source) && Word(target)
  }

  lemma LiteralWords()
    ensures Word("MESSAGE") && Word("PROPOSE") && Word("AGREE") && Word("DEPOSIT") && Word("TRANSFER")
  {
  }

  lemma TxWordsAreWords(tx: Tx)
    requires match tx
             case Deposit(account, _) => Word(account)
             case Transfer(source, target, _) => Word(source) && Word(target)
    ensures forall w :: w in TxWords(tx) ==> Word(w)
  {
    LiteralWords();
    IntShow(tx.amount);
  }

  lemma WordsAreWords(p: Packet)
    requires Plainly(p)
    ensures forall w :: w in Words(p) ==> Word(w)
    ensures Words(p)[0] != [] && Words(p)[|Words(p)| - 1] != []
  {
    LiteralWords();
    IntShow(p.node);
    TxWordsAreWords(p.tx);
    if p.Ranked? {
      TenthsShow(p.prio);
    }
    var ws := Words(p);
    forall w | w in ws ensures Word(w) {
      assert w in TxWords(p.tx) || w == ws[0] || w == p.id || w == Show(p.node)
          || (p.Ranked? && w == ShowTenths(p.prio));
    }
  }

  lemma ParseTxWords(ws: seq<string>, tx: Tx)
    requires |ws| >= 3 + |TxWords(tx)| && ws[2..2 + |TxWords(tx)|] == TxWords(tx)
    ensures ParseTx(ws) == Some((tx, |TxWords(tx)|))
  {
    IntShow(tx.amount);
    var t := ws[2..2 + |TxWords(tx)|];
    assert ws[2] == t[0] && ws[3] == t[1] && ws[4] == t[2];
    if tx.Transfer? {
      assert ws[5] == t[3];
    }
  }

  lemma ParsePlain(p: Packet, ws: seq<string>)
    requires p.Fresh? && Words(p) <= ws
    ensures Parse(ws) == Some(p)
  {
    var n := |TxWords(p.tx)|;
    IntShow(p.node);
    assert ws[2..2 + n] == TxWords(p.tx) && ws[2 + n] == Show(p.node);
    ParseTxWords(ws, p.tx);
    assert ws[0] == "MESSAGE" && ws[1] == p.id;
  }

  lemma ParseRanked(p: Packet, ws: seq<string>)
    requires p.Ranked? && Words(p) <= ws
    ensures Parse(ws) == Some(p)
  {
    var n := |TxWords(p.tx)|;
    IntShow(p.node);
    TenthsShow(p.prio);
    assert ws[2..2 + n] == TxWords(p.tx) && ws[2 + n] == ShowTenths(p.prio) && ws[3 + n] == Show(p.node);
    ParseTxWords(ws, p.tx);
    assert ws[0] == KindWord(p.kind) && ws[1] == p.id;
  }

  /** The words of a packet parse back to it, whatever follows them. */
  lemma ParseWords(p: Packet, ws: seq<string>)
    requires Words(p) <= ws
    ensures Parse(ws) == Some(p)
  {
    if p.Fresh? {
      ParsePlain(p, ws);
    } else {
      ParseRanked(p, ws);
    }
  }

  /** The same word, or another way to write the same number. */
  predicate SameWord(v: string, w: string) {
    || v == w
    || (Int(v).Some? && Int(v) == Int(w))
    || (Tenths(v).Some? && Tenths(v) == Tenths(w))
  }

  lemma ParseTxSound(ws: seq<string>)
    ensures ParseTx(ws).Some? ==>
              var (tx, n) := ParseTx(ws).value;
              n == |TxWords(tx)| && |ws| >= 2 + n && forall i :: 0 <= i < n ==> SameWord(ws[2 + i], TxWords(tx)[i])
  {
    if ParseTx(ws).Some? {
      IntShow(ParseTx(ws).value.0.amount);
    }
  }

  /** Only the words of a packet parse to it, up to how its numbers are written. */
  lemma ParseSound(ws: seq<string>)
    requires ws != []
    ensures Parse(ws).Some? ==>
              var v := Words(Parse(ws).value);
              |ws| >= |v| && forall i :: 0 <= i < |v| ==> SameWord(ws[i], v[i])
  {
    if Parse(ws).Some? {
      var p := Parse(ws).value;
      ParseTxSound(ws);
      IntShow(p.node);
      var v, t, n := Words(p), TxWords(p.tx), |TxWords(p.tx)|;
      assert v[..2] + t + v[2 + n..] == v;
      if p.Ranked? {
        TenthsShow(p.prio);
        assert v[2 + n..] == [ShowTenths(p.prio), Show(p.node)];
      } else {
        assert v[2 + n..] == [Show(p.node)];
      }
      forall i | 0 <= i < |v| ensures |ws| >= |v| && SameWord(ws[i], v[i]) {
        assert 2 <= i < 2 + n ==> v[i] == t[i - 2] && SameWord(ws[2 + (i - 2)], t[i - 2]);
      }
    }
  }

  /** The ends of a joined line are the ends of its first and last words. */
  lemma {:induction false} JoinEnds(ws: seq<string>)
    requires ws != [] && ws[0] != [] && ws[|ws| - 1] != []
    ensures Join(ws) != [] && Join(ws)[0] == ws[0][0]
    ensures Join(ws)[|Join(ws)| - 1] == ws[|ws| - 1][|ws[|ws| - 1]| - 1]
  {
    if |ws| > 1 {
      JoinLast(ws);
    }
  }

  lemma {:induction false} JoinLast(ws: seq<string>)
    requires ws != [] && ws[|ws| - 1] != []
    ensures Join(ws) != [] && Join(ws)[|Join(ws)| - 1] == ws[|ws| - 1][|ws[|ws| - 1]| - 1]
  {
    if |ws| > 1 {
      JoinLast(ws[1..]);
      assert ws[1..][|ws| - 2] == ws[|ws| - 1];
    }
  }

  /** Stripping a frame leaves its line. */
  lemma FrameStrips(p: Packet)
    requires Plainly(p)
    ensures Strip(Frame(p)) == Text(p)
  {
    var ws, s := Words(p), Text(p);
    WordsAreWords(p);
    JoinEnds(ws);
    assert ws[0] in ws && ws[|ws| - 1] in ws;
    assert s + Blanks(0) == s;
    StripPadding(s, if |s| < FRAME then FRAME - |s| else 0);
  }

  /** A frame parses back to its packet, padded or not. */
  lemma FrameRoundTrip(p: Packet)
    requires Plainly(p)
    ensures ParseFrame(Frame(p)) == Some(p)
    ensures |Frame(p)| == FRAME <==> |Text(p)| <= FRAME
  {
    FrameStrips(p);
    WordsAreWords(p);
    SplitJoin(Words(p));
    ParseWords(p, Words(p));
  }

  lemma {:induction false} BlanksGone(n: nat, s: string)
    requires s != [] && !Blank(s[0])
    ensures StripLeft(Blanks(n) + s) == s
  {
    if n > 0 {
      assert (Blanks(n) + s)[1..] == Blanks(n - 1) + s;
      BlanksGone(n - 1, s);
    } else {
      assert Blanks(0) + s == s;
    }
  }

  /** Blanks in front of a frame do not matter either. */
  lemma LeadingBlanks(p: Packet, n: nat)
    requires Plainly(p)
    ensures ParseFrame(Blanks(n) + Frame(p)) == Some(p)
  {
    var ws, s := Words(p), Text(p);
    var k := if |s| < FRAME then FRAME - |s| else 0;
    WordsAreWords(p);
    JoinEnds(ws);
    assert ws[0] in ws && ws[|ws| - 1] in ws;
    assert s + Blanks(0) == s;
    assert Blanks(n) + Frame(p) == Blanks(n) + s + Blanks(k);
    PaddingGone(Blanks(n) + s, k);
    BlanksGone(n, s);
    SplitJoin(ws);
    ParseWords(p, ws);
  }

  function Frames(ps: seq<Packet>): seq<string> {
    seq(|ps|, k requires 0 <= k < |ps| => Frame(ps[k]))
  }

  /** Cutting the stream gives the frames back. */
  lemma {:induction false} CutStream(ps: seq<Packet>)
    requires forall k :: 0 <= k < |ps| ==> |Frame(ps[k])| == FRAME
    ensures Cut(Stream(ps)) == Frames(ps)
  {
    if ps != [] {
      CutStream(ps[1..]);
      CutFirst(Frame(ps[0]), Stream(ps[1..]));
      assert Frames(ps) == [Frame(ps[0])] + Frames(ps[1..]);
    }
  }

  lemma CutFirst(f: string, rest: string)
    requires |f| == FRAME
    ensures Cut(f + rest) == [f] + Cut(rest)
  {
    var s := f + rest;
    assert s[..FRAME] == f && s[FRAME..] == rest;
    CutHead(s, FRAME);
  }

  /** Any list of packets whose fields hold no blank and whose lines fit a frame
      survives printing, concatenating, cutting every 256 characters and parsing. */
  lemma StreamRoundTrip(ps: seq<Packet>)
    requires forall k :: 0 <= k < |ps| ==> Plainly(ps[k]) && |Text(ps[k])| <= FRAME
    ensures var f := Filled(Cut(Stream(ps)));
            |f| == |ps| && forall k :: 0 <= k < |ps| ==> ParseFrame(f[k]) == Some(ps[k])
  {
    forall k | 0 <= k < |ps|
      ensures |Frame(ps[k])| == FRAME && ParseFrame(Frame(ps[k])) == Some(ps[k]) && Strip(Frame(ps[k])) != ""
    {
      FrameRoundTrip(ps[k]);
      FrameStrips(ps[k]);
      WordsAreWords(ps[k]);
      JoinEnds(Words(ps[k]));
    }
    CutStream(ps);
    AllFilled(Cut(Stream(ps)));
  }

  lemma {:induction false} AllFilled(pieces: seq<string>)
    requires forall k :: 0 <= k < |pieces| ==> Strip(pieces[k]) != ""
    ensures Filled(pieces) == pieces
  {
    if pieces != [] {
      AllFilled(pieces[1..]);
    }
  }

  // ------------------------------------------------------------------- pieces

  function Concat(pieces: seq<string>): string {
    if pieces == [] then "" else pieces[0] + Concat(pieces[1..])
  }

  /** Cutting loses nothing: all pieces but the last are 256 characters long, the last is
      not empty, and together they are the stream. */
  lemma {:induction false} CutIs(s: string)
    ensures Concat(Cut(s)) == s
    ensures forall k :: 0 <= k < |Cut(s)| ==> 0 < |Cut(s)[k]| <= FRAME
    ensures forall k :: 0 <= k < |Cut(s)| - 1 ==> |Cut(s)[k]| == FRAME
    decreases |s|
  {
    if |s| > FRAME {
      CutIs(s[FRAME..]);
      var c := Cut(s);
      assert c[0] == s[..FRAME] && c[1..] == Cut(s[FRAME..]);
      forall k | 0 <= k < |c| ensures 0 < |c[k]| <= FRAME && (k < |c| - 1 ==> |c[k]| == FRAME) {
        if k > 0 {
          assert c[k] == Cut(s[FRAME..])[k - 1];
        }
      }
    }
  }

  /** A piece is left out exactly if it is blank, wherever it stands. */
  lemma FilledIs(before: seq<string>, piece: string, after: seq<string>)
    ensures Filled(before + [piece] + after)
         == Filled(before) + (if forall i :: 0 <= i < |piece| ==> Blank(piece[i]) then [] else [piece]) + Filled(after)
  {
    FilledJoin(before + [piece], after);
    FilledJoin(before, [piece]);
    StripsToNothing(piece);
    assert [piece][1..] == [];
  }

  lemma {:induction false} FilledJoin(a: seq<string>, b: seq<string>)
    ensures Filled(a + b) == Filled(a) + Filled(b)
  {
    if a == [] {
      assert a + b == b;
    } else {
      FilledJoin(a[1..], b);
      assert (a + b)[0] == a[0] && (a + b)[1..] == a[1..] + b;
      var first := if Strip(a[0]) == "" then [] else [a[0]];
      assert first + (Filled(a[1..]) + Filled(b)) == first + Filled(a[1..]) + Filled(b);
    }
  }

  lemma StripsToNothing(s: string)
    ensures Strip(s) == "" <==> forall i :: 0 <= i < |s| ==> Blank(s[i])
  {
    RightGone(s);
    LeftGone(StripRight(s));
  }

  lemma {:induction false} RightGone(s: string)
    ensures StripRight(s) <= s && forall i :: |StripRight(s)| <= i < |s| ==> Blank(s[i])
    ensures StripRight(s) != [] ==> !Blank(StripRight(s)[|StripRight(s)| - 1])
  {
    if s != [] && Blank(s[|s| - 1]) {
      RightGone(s[..|s| - 1]);
    }
  }

  lemma {:induction false} LeftGone(s: string)
    ensures StripLeft(s) == "" <==> forall i :: 0 <= i < |s| ==> Blank(s[i])
  {
    if s != [] && Blank(s[0]) {
      LeftGone(s[1..]);
      assert forall i :: 1 <= i < |s| ==> s[i] == s[1..][i - 1];
    }
  }

  /** The words that are printed, of each kind. */
  lemma PrintedWords(id: string, a: string, b: string)
    ensures Words(Fresh(id, Deposit(a, -5), 3)) == ["MESSAGE", id, "DEPOSIT", a, "-5", "3"]
    ensures Words(Ranked(AGREE, id, Transfer(a, b, 12), 203, 3))
         == ["AGREE", id, "TRANSFER", a, b, "12", "20.3", "3"]
    ensures Words(Ranked(PROPOSE, id, Deposit(a, 5), 12, 2)) == ["PROPOSE", id, "DEPOSIT", a, "5", "1.2", "2"]
  {
    PrintedNumbers();
  }

  lemma PrintedNumbers()
    ensures Show(-5) == "-5" && Show(3) == "3" && Show(12) == "12" && Show(5) == "5" && Show(2) == "2"
    ensures ShowTenths(203) == "20.3" && ShowTenths(12) == "1.2"
  {
    assert Digits(1) == "1" && Digits(2) == "2";
    assert Digits(12) == "12" && Digits(20) == "20";
  }
}
