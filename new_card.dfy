/**
 * The new-card form (app/cards/new/page.tsx): two image slots, the
 * `analyzing` flag that disables the form, and the upload that leads to the
 * new card's page.
 */
module NewCard {
  import opened Wrappers

  /** An image file chosen in a file input. */
  datatype File = File(name: string, bytes: seq<bv8>)

  datatype Side = Front | Back

  /** The multipart POST to `/business_cards`. */
  datatype Upload = Upload(frontImage: File, backImage: File)

  /**
   * How the upload ended: a request or a body that did not parse rejects the
   * promise (`Failed`); a JSON body without `data.attributes`, such as an error
   * reply, makes the read of `code` throw after `analyzing` is cleared
   * (`NoCard`); otherwise the created card's `code`.
   */
  datatype Reply = Failed | NoCard | Created(code: string)

  const UploadPath := "/business_cards"

  function CardPath(code: string): string {
    "/cards/" + code
  }

  /** The pages a sequence of replies opens: one per created card, in order. */
  function CreatedPaths(replies: seq<Reply>): (paths: seq<string>)
    ensures |paths| <= |replies|
  {
    if replies == [] then []
    else
      var last := replies[|replies| - 1];
      CreatedPaths(replies[..|replies| - 1]) + (if last.Created? then [CardPath(last.code)] else [])
  }

  class NewCardPage {
    var frontImage: Option<File>
    var backImage: Option<File>
    var analyzing: bool
    var uploads: seq<Upload>
    var navigations: seq<string>
    /** An upload has been sent and its reply has not been delivered yet. */
    ghost var awaitingReply: bool
    /** The replies delivered so far, oldest first. */
    ghost var replies: seq<Reply>

    /**
     * The form is never waiting for a reply while it is enabled; every upload
     * has had its reply except the one awaited; and the pages opened are those
     * of the created cards, in reply order.
     */
    ghost predicate Valid()
      reads this
    {
      && (awaitingReply ==> analyzing)
      && |replies| + (if awaitingReply then 1 else 0) == |uploads|
      && navigations == CreatedPaths(replies)
    }

    constructor ()
      ensures Valid()
      ensures frontImage == None && backImage == None && !analyzing
      ensures uploads == [] && navigations == [] && !awaitingReply && replies == []
    {
      frontImage := None;
      backImage := None;
      analyzing := false;
      uploads := [];
      navigations := [];
      awaitingReply := false;
      replies := [];
    }

    /**
     * onUploadImage: a null file list or a running analysis leaves the slots
     * alone; otherwise the side's slot takes the first file, which is empty
     * (`undefined`) when the list is.
     */
    method OnUploadImage(files: Option<seq<File>>, side: Side)
      requires Valid()
      modifies this
      ensures Valid()
      ensures var first := if files.Some? && files.value != [] then Some(files.value[0]) else None;
        var changes := files.Some? && !old(analyzing);
        && frontImage == (if changes && side == Front then first else old(frontImage))
        && backImage == (if changes && side == Back then first else old(backImage))
      ensures analyzing == old(analyzing) && uploads == old(uploads) && navigations == old(navigations)
      ensures awaitingReply == old(awaitingReply) && replies == old(replies)
    {
      if files.None? {
        return;
      }
      if analyzing {
        return;
      }
      var first := if files.value != [] then Some(files.value[0]) else None;
      if side == Front {
        frontImage := first;
      } else {
        backImage := first;
      }
    }

    /**
     * onSubmit: with both images it sends them and stays disabled until the
     * reply; with either missing it sends nothing and re-enables the form.
     * The submit button and the inputs are disabled while analyzing, so the
     * handler only runs when the form is idle.
     */
    method Submit() returns (sent: Option<Upload>)
      requires Valid() && !analyzing
      modifies this
      ensures Valid()
      ensures sent.Some? <==> old(frontImage).Some? && old(backImage).Some?
      ensures sent.Some? ==> sent.value == Upload(old(frontImage).value, old(backImage).value)
      ensures analyzing == sent.Some? && awaitingReply == sent.Some?
      ensures uploads == old(uploads) + (if sent.Some? then [sent.value] else [])
      ensures frontImage == old(frontImage) && backImage == old(backImage) && navigations == old(navigations)
      ensures replies == old(replies)
    {
      analyzing := true;
      if frontImage.None? || backImage.None? {
        analyzing := false;
        return None;
      }
      sent := Some(Upload(frontImage.value, backImage.value));
      uploads := uploads + [sent.value];
      awaitingReply := true;
    }

    /**
     * The continuation of onSubmit once the server answers. A rejected promise
     * is not caught, so the form stays disabled. Any parsed body re-enables the
     * form; only a created card's body then reaches the navigation, since
     * reading `code` from any other body throws.
     */
    method OnReply(reply: Reply)
      requires Valid() && awaitingReply
      modifies this
      ensures Valid() && !awaitingReply && replies == old(replies) + [reply]
      ensures analyzing == reply.Failed?
      ensures navigations == old(navigations) + (if reply.Created? then [CardPath(reply.code)] else [])
      ensures frontImage == old(frontImage) && backImage == old(backImage) && uploads == old(uploads)
    {
      awaitingReply := false;
      replies := replies + [reply];
      assert replies[..|replies| - 1] == old(replies);
      if !reply.Failed? {
        analyzing := false;
      }
      if reply.Created? {
        navigations := navigations + [CardPath(reply.code)];
      }
    }
  }

  /**
   * Every page the form opens is the page of a card some reply created, and
   * every created card's page is opened.
   */
  lemma {:induction false} CreatedPathsMembers(replies: seq<Reply>, p: string)
    ensures p in CreatedPaths(replies) <==>
      exists j | 0 <= j < |replies| :: replies[j].Created? && p == CardPath(replies[j].code)
  {
    if replies != [] {
      var init := replies[..|replies| - 1];
      CreatedPathsMembers(init, p);
      if exists j | 0 <= j < |init| :: init[j].Created? && p == CardPath(init[j].code) {
        var j :| 0 <= j < |init| && init[j].Created? && p == CardPath(init[j].code);
        assert replies[j] == init[j];
      }
      if exists j | 0 <= j < |replies| :: replies[j].Created? && p == CardPath(replies[j].code) {
        var j :| 0 <= j < |replies| && replies[j].Created? && p == CardPath(replies[j].code);
        if j < |init| {
          assert init[j] == replies[j];
        }
      }
    }
  }
}
