/** The message text `webhook_log` posts: a block of ANSI-coloured words, whose colour
    tells the kind of log. The colour codes and the background live in
    `crate::constants`, which is not part of this model, so they are a `Palette`. */
module WebhookLogging {
  import opened Text

  /** `LOG`. */
  datatype Log = Successful | Informational | Failure

  /** The `BACKGROUND` escape and the escapes of the three kinds of log. */
  datatype Palette = Palette(background: string, successful: string, informational: string, failure: string)

  predicate Distinct(p: Palette)
  {
    p.successful != p.informational && p.successful != p.failure && p.informational != p.failure
  }

  /** The colour of a log type; with three distinct colours, the colour tells the type. */
  function Colour(p: Palette, t: Log): (r: string)
    ensures Distinct(p) ==> (r == p.successful <==> t == Successful)
    ensures Distinct(p) ==> (r == p.informational <==> t == Informational)
    ensures Distinct(p) ==> (r == p.failure <==> t == Failure)
  {
    match t
    case Successful => p.successful
    case Informational => p.informational
    case Failure => p.failure
  }

  /** Every word, in order, with `colour` in front of it. */
  function Colourise(colour: string, words: seq<string>): (r: seq<string>)
    ensures |r| == |words|
    ensures forall i :: 0 <= i < |r| ==> r[i] == colour + words[i]
  {
    if |words| == 0 then [] else [colour + words[0]] + Colourise(colour, words[1..])
  }

  /** Every piece with its first `n` characters dropped. */
  function Uncolourise(n: nat, pieces: seq<string>): (r: seq<string>)
    requires forall i :: 0 <= i < |pieces| ==> |pieces[i]| >= n
    ensures |r| == |pieces|
    ensures forall i :: 0 <= i < |r| ==> r[i] == pieces[i][n..]
  {
    if |pieces| == 0 then [] else [pieces[0][n..]] + Uncolourise(n, pieces[1..])
  }

  /** The coloured words: the content split on single spaces (empty pieces kept), each piece
      prefixed with the colour. There is one piece more than the content has spaces. */
  function Pieces(colour: string, content: string): (r: seq<string>)
    ensures |r| == Count(content, ' ') + 1
    ensures forall i :: 0 <= i < |r| ==> |r[i]| >= |colour| && r[i][..|colour|] == colour
  {
    Colourise(colour, Split(content, ' '))
  }

  /** The coloured words joined with single spaces. */
  function Body(colour: string, content: string): string
  {
    Join(Pieces(colour, content), " ")
  }

  /** The posted text. */
  function Content(p: Palette, t: Log, content: string): string
  {
    "```ansi\n" + p.background + Body(Colour(p, t), content) + "```"
  }

  /** The posted text is an `ansi` code block holding the background escape and the body. */
  lemma ContentShape(p: Palette, t: Log, content: string)
    ensures var r := Content(p, t, content);
      && |r| >= 11 && r[..8] == "```ansi\n" && r[|r| - 3..] == "```"
      && r[8..|r| - 3] == p.background + Body(Colour(p, t), content)
  {
    var r := Content(p, t, content);
    var mid := p.background + Body(Colour(p, t), content);
    assert r == "```ansi\n" + mid + "```";
  }

  /** With a colour that holds no space, splitting the body on spaces gives back exactly the
      coloured pieces, one per space of the content plus one. */
  lemma BodySplit(colour: string, content: string)
    requires ' ' !in colour
    ensures Split(Body(colour, content), ' ') == Pieces(colour, content)
    ensures |Split(Body(colour, content), ' ')| == Count(content, ' ') + 1
  {
    var words := Split(content, ' ');
    var pieces := Pieces(colour, content);
    forall i | 0 <= i < |pieces|
      ensures ' ' !in pieces[i]
    {
      assert pieces[i] == colour + words[i];
      assert ' ' !in words[i];
    }
    SplitJoin(pieces, ' ');
  }

  /** Removing the colour from every piece of the body and rejoining with spaces recovers
      the original content. */
  lemma StripColour(colour: string, content: string)
    requires ' ' !in colour
    ensures var pieces := Split(Body(colour, content), ' ');
            (forall i :: 0 <= i < |pieces| ==> |pieces[i]| >= |colour|)
            && Join(Uncolourise(|colour|, pieces), " ") == content
  {
    BodySplit(colour, content);
    var words := Split(content, ' ');
    var pieces := Pieces(colour, content);
    var stripped := Uncolourise(|colour|, pieces);
    assert stripped == words by {
      forall i | 0 <= i < |words|
        ensures stripped[i] == words[i]
      {
        assert pieces[i] == colour + words[i];
      }
    }
    JoinSplit(content, ' ');
  }

  /** The webhook the service logs to: every call posts one message. */
  class Webhook {
    const palette: Palette
    var sent: seq<string>

    constructor(palette: Palette)
      ensures this.palette == palette && sent == []
    {
      this.palette := palette;
      sent := [];
    }

    /** `webhook_log(content, t)`: posts the coloured text of `content`. */
    method WebhookLog(content: string, t: Log)
      modifies this
      ensures sent == old(sent) + [Content(palette, t, content)]
    {
      sent := sent + [Content(palette, t, content)];
    }
  }
}
