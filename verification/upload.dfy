/**
 * The decision logic of the task-upload form: the draft it holds (image URLs, title, payment
 * signature), the guard chains of "submit task" and "pay", the request it posts, the progress
 * flags and shortened signature it shows, and what it keeps in the browser's storage.
 * The wallet, the chain's RPC node and the backend are outside: their answers are parameters.
 */
module Upload {
  import opened Wrappers
  import opened JsText
  import opened Guards

  const MAX_IMAGES: nat := 10
  const MAX_TITLE_LENGTH: nat := 200
  /** 0.1 SOL, in lamports. */
  const PAYMENT_AMOUNT: nat := 100000000
  /** The fee allowance added to the payment before the balance check, in lamports. */
  const ESTIMATED_FEE: nat := 10000
  /** How many characters of the signature are shown at each end. */
  const SIGNATURE_EDGE: nat := 8

  const NOT_SIGNED_IN := "Please connect your wallet and sign in"
  /** (PAYMENT_AMOUNT + ESTIMATED_FEE) / 1e9, as JavaScript prints it, is 0.10001. */
  const INSUFFICIENT_BALANCE := "Insufficient balance. Need at least 0.10001 SOL"
  const TRANSACTION_FAILED := "Transaction failed"
  const CONFIRMATION_TIMEOUT := "Transaction confirmation timeout"
  const PAYMENT_FAILED := "Payment failed"

  /** The persisted part of the form's state. */
  datatype DraftState = DraftState(images: seq<string>, title: string, txSignature: string)

  /** The state the form starts in. */
  const EMPTY_DRAFT := DraftState([], "", "")

  // ---------------------------------------------------------------------------------------------
  // Images

  /**
   * `images.filter((_, i) => i !== index)`: keep every element whose position is not `index`.
   * For an index in range that deletes exactly that element; any other index deletes nothing.
   */
  function WithoutIndex(images: seq<string>, index: int): (r: seq<string>)
    ensures 0 <= index < |images| ==> r == images[..index] + images[index + 1..]
    ensures !(0 <= index < |images|) ==> r == images
  {
    if images == [] then []
    else
      var last := |images| - 1;
      var front := images[..last];
      var kept := WithoutIndex(front, index) + (if last == index then [] else [images[last]]);
      assert 0 <= index < last ==> front[index + 1..] + [images[last]] == images[index + 1..];
      assert images == front + [images[last]];
      kept
  }

  // ---------------------------------------------------------------------------------------------
  // Submitting the task

  /** Why "submit task" stops before sending anything, with the message it shows. */
  datatype SubmitBlock = TitleRequired | TitleTooLong | NoImages | PaymentMissing {
    function Message(): string {
      match this
      case TitleRequired => "Please enter a task title"
      case TitleTooLong => "Title must be less than 200 characters"
      case NoImages => "Please add at least one image"
      case PaymentMissing => "Please complete payment first"
    }
  }

  /** The guards of "submit task", in the order they run. */
  function SubmitChecks(title: string, images: seq<string>, txSignature: string): seq<Check<SubmitBlock>> {
    [ Check(Trim(title) != "", TitleRequired),
      Check(|title| <= MAX_TITLE_LENGTH, TitleTooLong),
      Check(|images| != 0, NoImages),
      Check(txSignature != "", PaymentMissing) ]
  }

  /**
   * The guard chain of "submit task": the first failing guard in the order blank title, title over
   * 200 characters, no image, no payment; None exactly when all four pass.
   */
  function SubmitGuard(title: string, images: seq<string>, txSignature: string): (r: Option<SubmitBlock>)
    ensures r == FirstFailing(SubmitChecks(title, images, txSignature))
    ensures r.None? <==> !IsBlank(title) && |title| <= MAX_TITLE_LENGTH && |images| > 0 && txSignature != ""
  {
    var checks := SubmitChecks(title, images, txSignature);
    assert checks[2] == Check(|images| != 0, NoImages) && checks[3] == Check(txSignature != "", PaymentMissing);
    if Trim(title) == "" then Some(TitleRequired)
    else if |title| > MAX_TITLE_LENGTH then Some(TitleTooLong)
    else if |images| == 0 then Some(NoImages)
    else if txSignature == "" then Some(PaymentMissing)
    else None
  }

  /** One `{ imageUrl }` entry of the request's `options`. */
  datatype ImageOption = ImageOption(imageUrl: string)

  /** The task-creation request: its JSON body and its `Authorization` header. */
  datatype TaskRequest = TaskRequest(options: seq<ImageOption>, title: string, signature: string, authorization: string)

  /** `images.map((image) => ({ imageUrl: image }))`: one option per image, in the same order. */
  function ImageOptions(images: seq<string>): (r: seq<ImageOption>)
    ensures |r| == |images|
    ensures forall k :: 0 <= k < |r| ==> r[k].imageUrl == images[k]
  {
    if images == [] then [] else [ImageOption(images[0])] + ImageOptions(images[1..])
  }

  /** The URLs an option list carries, the inverse of ImageOptions. */
  function ImageUrls(options: seq<ImageOption>): (r: seq<string>)
    ensures |r| == |options|
  {
    if options == [] then [] else [options[0].imageUrl] + ImageUrls(options[1..])
  }

  /** The image URLs can be read back from the request unchanged. */
  lemma {:induction false} ImageUrlsOfImageOptions(images: seq<string>)
    ensures ImageUrls(ImageOptions(images)) == images
  {
    if images != [] {
      ImageUrlsOfImageOptions(images[1..]);
      assert ImageOptions(images)[1..] == ImageOptions(images[1..]);
    }
  }

  /** `!token` fails for a missing token and for an empty one alike. */
  predicate SignedIn(token: Option<string>) {
    token.Some? && token.value != ""
  }

  /**
   * The request "submit task" sends, if any: one is sent exactly when every guard passes and a
   * non-empty sign-in token is stored; it carries the images in order, the title and the signature unchanged,
   * and the token as its authorization.
   */
  function SubmitRequest(title: string, images: seq<string>, txSignature: string, token: Option<string>): (r: Option<TaskRequest>)
    ensures r.Some? <==> SubmitGuard(title, images, txSignature).None? && SignedIn(token)
    ensures r.Some? ==> token.Some? && token.value != ""
    ensures r.Some? ==> && |r.value.options| == |images|
                        && (forall k :: 0 <= k < |images| ==> r.value.options[k].imageUrl == images[k])
                        && r.value.title == title
                        && r.value.signature == txSignature
                        && r.value.authorization == token.value
  {
    if SubmitGuard(title, images, txSignature).Some? || !SignedIn(token) then None
    else Some(TaskRequest(ImageOptions(images), title, txSignature, token.value))
  }

  /** The backend's answer to the task-creation request. */
  datatype PostOutcome =
    | TaskStored(taskId: string)
      /** A rejected request: the error's message and the HTTP status, if a response came back. */
    | RequestFailed(message: string, status: Option<int>)

  /** What "submit task" ends with. */
  datatype SubmitResult =
    | SubmitBlocked(block: SubmitBlock)
      /** The error message shown, and whether the "payment is saved" notice follows it. */
    | SubmitFailed(message: string, paymentSavedNotice: bool)
    | TaskCreated(taskId: string)

  /**
   * The outcome of "submit task". A failing guard stops it with that guard's reason; a missing or
   * empty token fails it before any request, with no notice; otherwise it ends as the backend
   * answered: a backend error shows its own message, and the "payment is saved" notice follows it
   * exactly when the status was not 401.
   */
  function SubmitFlow(title: string, images: seq<string>, txSignature: string, token: Option<string>, post: PostOutcome): (r: SubmitResult)
    ensures r.SubmitBlocked? <==> SubmitGuard(title, images, txSignature).Some?
    ensures r.SubmitBlocked? ==> Some(r.block) == SubmitGuard(title, images, txSignature)
    ensures r.TaskCreated? <==> SubmitRequest(title, images, txSignature, token).Some? && post.TaskStored?
    ensures r.TaskCreated? ==> r.taskId == post.taskId
    ensures SubmitGuard(title, images, txSignature).None? && !SignedIn(token) ==> r == SubmitFailed(NOT_SIGNED_IN, false)
    ensures SubmitRequest(title, images, txSignature, token).Some? && post.RequestFailed?
            ==> r == SubmitFailed(post.message, post.status != Some(401))
    ensures r.SubmitFailed? && r.paymentSavedNotice ==> post.RequestFailed? && post.status != Some(401)
  {
    match SubmitGuard(title, images, txSignature)
    case Some(block) => SubmitBlocked(block)
    case None =>
      if !SignedIn(token) then SubmitFailed(NOT_SIGNED_IN, false)
      else
        match post
        case TaskStored(id) => TaskCreated(id)
        case RequestFailed(message, status) => SubmitFailed(message, status != Some(401))
  }

  /** When no request is sent, the backend's answer cannot affect the outcome. */
  lemma SubmitWithoutRequestIgnoresBackend(title: string, images: seq<string>, txSignature: string, token: Option<string>, post1: PostOutcome, post2: PostOutcome)
    requires SubmitRequest(title, images, txSignature, token).None?
    ensures SubmitFlow(title, images, txSignature, token, post1) == SubmitFlow(title, images, txSignature, token, post2)
  {
  }

  // ---------------------------------------------------------------------------------------------
  // Paying

  /** Why "pay" stops before contacting the chain, with the message it shows. */
  datatype PaymentBlock = WalletNotConnected | TitleRequiredBeforePayment | NoImagesBeforePayment {
    function Message(): string {
      match this
      case WalletNotConnected => "Please connect your wallet first"
      case TitleRequiredBeforePayment => "Please enter a task title before payment"
      case NoImagesBeforePayment => "Please add at least one image before payment"
    }
  }

  /** The guards of "pay", in the order they run. */
  function PaymentChecks(walletConnected: bool, title: string, images: seq<string>): seq<Check<PaymentBlock>> {
    [ Check(walletConnected, WalletNotConnected),
      Check(Trim(title) != "", TitleRequiredBeforePayment),
      Check(|images| != 0, NoImagesBeforePayment) ]
  }

  /**
   * The guard chain of "pay": the first failing guard in the order no wallet, blank title, no image;
   * None exactly when all three pass. The title's length is not checked here.
   */
  function PaymentGuard(walletConnected: bool, title: string, images: seq<string>): (r: Option<PaymentBlock>)
    ensures r == FirstFailing(PaymentChecks(walletConnected, title, images))
    ensures r.None? <==> walletConnected && !IsBlank(title) && |images| > 0
  {
    var checks := PaymentChecks(walletConnected, title, images);
    assert checks[2] == Check(|images| != 0, NoImagesBeforePayment);
    if !walletConnected then Some(WalletNotConnected)
    else if Trim(title) == "" then Some(TitleRequiredBeforePayment)
    else if |images| == 0 then Some(NoImagesBeforePayment)
    else None
  }

  /** The balance check, on whole lamports: the payment plus the fee allowance must be covered. */
  predicate BalanceSufficient(lamports: nat) {
    !(lamports < PAYMENT_AMOUNT + ESTIMATED_FEE)
  }

  /** The RPC node's answer to the balance query (the message is None when what was thrown is not an Error). */
  datatype BalanceReply = Lamports(amount: nat) | BalanceUnavailable(message: Option<string>)

  /**
   * How the transfer ended: finalized under a signature, failed before or while sending (blockhash
   * query, wallet, node), finalized with an error, or not confirmed within the 60 seconds allowed.
   */
  datatype TransferOutcome =
    | Finalized(signature: string)
    | SendFailed(message: Option<string>)
    | FinalizedWithError
    | ConfirmationTimedOut

  /** What "pay" ends with. */
  datatype PaymentResult = PaymentBlocked(block: PaymentBlock) | PaymentFailed(message: string) | Paid(signature: string)

  /** The message shown for what was thrown: its own message when it is an Error, else the fallback. */
  function ErrorMessage(message: Option<string>): string {
    match message
    case Some(m) => m
    case None => PAYMENT_FAILED
  }

  /** Whether "pay" goes as far as building and sending the transfer. */
  predicate TransferAttempted(walletConnected: bool, title: string, images: seq<string>, balance: BalanceReply) {
    PaymentGuard(walletConnected, title, images).None? && balance.Lamports? && BalanceSufficient(balance.amount)
  }

  /**
   * The outcome of "pay". A failing guard stops it with that guard's reason; a balance below
   * 100010000 lamports fails it with the insufficient-balance message; it succeeds, with the
   * transfer's signature, exactly when the transfer was attempted and finalized without error.
   */
  function PaymentFlow(walletConnected: bool, title: string, images: seq<string>, balance: BalanceReply, transfer: TransferOutcome): (r: PaymentResult)
    ensures r.PaymentBlocked? <==> PaymentGuard(walletConnected, title, images).Some?
    ensures r.PaymentBlocked? ==> Some(r.block) == PaymentGuard(walletConnected, title, images)
    ensures r.Paid? <==> TransferAttempted(walletConnected, title, images, balance) && transfer.Finalized?
    ensures r.Paid? ==> r.signature == transfer.signature
    ensures PaymentGuard(walletConnected, title, images).None? && balance.Lamports? && balance.amount < PAYMENT_AMOUNT + ESTIMATED_FEE
            ==> r == PaymentFailed(INSUFFICIENT_BALANCE)
  {
    match PaymentGuard(walletConnected, title, images)
    case Some(block) => PaymentBlocked(block)
    case None =>
      match balance
      case BalanceUnavailable(message) => PaymentFailed(ErrorMessage(message))
      case Lamports(amount) =>
        if !BalanceSufficient(amount) then PaymentFailed(INSUFFICIENT_BALANCE)
        else
          match transfer
          case Finalized(signature) => Paid(signature)
          case SendFailed(message) => PaymentFailed(ErrorMessage(message))
          case FinalizedWithError => PaymentFailed(TRANSACTION_FAILED)
          case ConfirmationTimedOut => PaymentFailed(CONFIRMATION_TIMEOUT)
  }

  /** When no transfer is attempted, how a transfer would have ended cannot affect the outcome. */
  lemma PaymentWithoutTransferIgnoresChain(walletConnected: bool, title: string, images: seq<string>, balance: BalanceReply, t1: TransferOutcome, t2: TransferOutcome)
    requires !TransferAttempted(walletConnected, title, images, balance)
    ensures PaymentFlow(walletConnected, title, images, balance, t1) == PaymentFlow(walletConnected, title, images, balance, t2)
  {
  }

  // ---------------------------------------------------------------------------------------------
  // What the form shows

  /** The "pay" button's `disabled` attribute. */
  predicate PayButtonDisabled(isLoading: bool, title: string, images: seq<string>) {
    isLoading || Trim(title) == "" || |images| == 0
  }

  /**
   * The pay button is disabled exactly when the form is busy or "pay" would stop at its title or
   * image guard; so an enabled button can only be stopped by a missing wallet.
   */
  lemma PayButtonMatchesPaymentGuard(isLoading: bool, title: string, images: seq<string>, walletConnected: bool)
    ensures PayButtonDisabled(isLoading, title, images) <==> isLoading || PaymentGuard(true, title, images).Some?
    ensures !PayButtonDisabled(isLoading, title, images)
            ==> PaymentGuard(walletConnected, title, images) == (if walletConnected then None else Some(WalletNotConnected))
  {
  }

  /** The three steps of the progress indicator and whether the "add image" slot is shown. */
  datatype Progress = Progress(detailsDone: bool, imagesDone: bool, paymentDone: bool, canAddImage: bool)

  function ProgressOf(draft: DraftState): (p: Progress)
    ensures p.detailsDone <==> !IsBlank(draft.title)
    ensures p.imagesDone <==> draft.images != []
    ensures p.paymentDone <==> draft.txSignature != ""
    ensures p.canAddImage <==> |draft.images| < MAX_IMAGES
  {
    Progress(Trim(draft.title) != "", |draft.images| > 0, draft.txSignature != "", |draft.images| < MAX_IMAGES)
  }

  /**
   * "Submit task" passes its guards exactly when all three steps show as done and the title is
   * within 200 characters.
   */
  lemma SubmitGuardMatchesProgress(draft: DraftState)
    ensures var p := ProgressOf(draft);
            SubmitGuard(draft.title, draft.images, draft.txSignature).None?
            <==> p.detailsDone && p.imagesDone && p.paymentDone && |draft.title| <= MAX_TITLE_LENGTH
  {
  }

  function Min(a: nat, b: nat): nat { if a < b then a else b }

  /**
   * `sig.slice(0, 8) + "..." + sig.slice(-8)`: the first and the last (up to) eight characters of the
   * signature around an ellipsis; a signature shorter than eight characters appears twice.
   */
  function SignatureDisplay(sig: string): (r: string)
    ensures |r| == 2 * Min(SIGNATURE_EDGE, |sig|) + 3
    ensures forall k :: 0 <= k < Min(SIGNATURE_EDGE, |sig|) ==> r[k] == sig[k]
    ensures forall k :: |r| - Min(SIGNATURE_EDGE, |sig|) <= k < |r| ==> r[k] == sig[|sig| - |r| + k]
    ensures r[Min(SIGNATURE_EDGE, |sig|)..Min(SIGNATURE_EDGE, |sig|) + 3] == "..."
  {
    var head := sig[..Min(SIGNATURE_EDGE, |sig|)];
    var tail := if |sig| < SIGNATURE_EDGE then sig else sig[|sig| - SIGNATURE_EDGE..];
    head + "..." + tail
  }

  // ---------------------------------------------------------------------------------------------
  // Browser storage

  /** A stored image list: the parsed JSON array, or text `JSON.parse` rejects. */
  datatype SavedImages = ImageList(urls: seq<string>) | Unparsable

  /** The three storage keys the form uses: "pendingTxSignature", "pendingTaskTitle", "pendingTaskImages". */
  datatype Saved = Saved(txSignature: Option<string>, title: Option<string>, images: Option<SavedImages>)

  const NOTHING_SAVED := Saved(None, None, None)

  /**
   * Saving the draft: a non-empty signature, a non-empty title and a non-empty image list overwrite
   * their keys; an empty one leaves whatever was stored before, so saving never removes a key.
   */
  function SaveDraft(saved: Saved, draft: DraftState): (r: Saved)
    ensures draft.txSignature != "" ==> r.txSignature == Some(draft.txSignature)
    ensures draft.title != "" ==> r.title == Some(draft.title)
    ensures draft.images != [] ==> r.images == Some(ImageList(draft.images))
    ensures saved.txSignature.Some? ==> r.txSignature.Some?
    ensures saved.title.Some? ==> r.title.Some?
    ensures saved.images.Some? ==> r.images.Some?
    ensures r.txSignature != saved.txSignature ==> r.txSignature == Some(draft.txSignature) && draft.txSignature != ""
    ensures r.title != saved.title ==> r.title == Some(draft.title) && draft.title != ""
    ensures r.images != saved.images ==> r.images == Some(ImageList(draft.images)) && draft.images != []
  {
    Saved(
      if draft.txSignature != "" then Some(draft.txSignature) else saved.txSignature,
      if draft.title != "" then Some(draft.title) else saved.title,
      if |draft.images| > 0 then Some(ImageList(draft.images)) else saved.images)
  }

  /** After a task is created the three keys are removed; any other outcome keeps them for a retry. */
  function SavedAfterSubmit(saved: Saved, result: SubmitResult): Saved {
    if result.TaskCreated? then NOTHING_SAVED else saved
  }

  /**
   * Restoring on mount: a non-empty stored signature and title replace the current ones, a stored
   * image list that parses replaces the images, and anything else leaves the field as it is.
   */
  function Restored(current: DraftState, saved: Saved): (r: DraftState)
    ensures saved == NOTHING_SAVED ==> r == current
  {
    DraftState(
      if saved.images.Some? && saved.images.value.ImageList? then saved.images.value.urls else current.images,
      if saved.title.Some? && saved.title.value != "" then saved.title.value else current.title,
      if saved.txSignature.Some? && saved.txSignature.value != "" then saved.txSignature.value else current.txSignature)
  }

  /** A fresh form restores exactly the draft that was saved into empty storage. */
  lemma RestoreAfterSave(draft: DraftState)
    ensures Restored(EMPTY_DRAFT, SaveDraft(NOTHING_SAVED, draft)) == draft
  {
  }

  /**
   * Removing every image does not clear the stored list: after a reload the images saved
   * earlier come back.
   */
  lemma RemovedImagesComeBack(earlier: DraftState, later: DraftState)
    requires |earlier.images| > 0 && later.images == []
    ensures Restored(EMPTY_DRAFT, SaveDraft(SaveDraft(NOTHING_SAVED, earlier), later)).images == earlier.images
  {
  }

  /**
   * A reload after a task was created starts from an empty form; after any other outcome of
   * "submit task" the saved draft, payment signature included, comes back for a retry.
   */
  lemma ReloadAfterSubmit(draft: DraftState, result: SubmitResult)
    ensures result.TaskCreated? ==> Restored(EMPTY_DRAFT, SavedAfterSubmit(SaveDraft(NOTHING_SAVED, draft), result)) == EMPTY_DRAFT
    ensures !result.TaskCreated? ==> Restored(EMPTY_DRAFT, SavedAfterSubmit(SaveDraft(NOTHING_SAVED, draft), result)) == draft
  {
  }

  /** Restoring does not apply the image cap: a stored list of eleven images is restored as it is. */
  lemma RestoreIgnoresImageCap(urls: seq<string>)
    requires |urls| == MAX_IMAGES + 1
    ensures |Restored(EMPTY_DRAFT, Saved(None, None, Some(ImageList(urls)))).images| > MAX_IMAGES
  {
  }
}
