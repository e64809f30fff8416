/**
 * The upload form's component state and the handlers that change it: adding and removing an image,
 * editing the title, restoring a saved draft, paying and submitting.
 */
module UploadComponent {
  import opened Wrappers
  import opened Upload

  class Draft {
    var images: seq<string>
    var title: string
    var txSignature: string
    var isLoading: bool

    /** The draft part of the state. */
    function State(): DraftState
      reads this
    {
      DraftState(images, title, txSignature)
    }

    /** The image cap the form keeps while images are only added through AddImage. */
    predicate WithinImageCap()
      reads this
    {
      |images| <= MAX_IMAGES
    }

    /** A new form: no images, no title, no payment, not busy. */
    constructor ()
      ensures State() == EMPTY_DRAFT && !isLoading
      ensures WithinImageCap()
    {
      images, title, txSignature, isLoading := [], "", "", false;
    }

    /**
     * `handleAddImage`: a bounded append. Below ten images the URL goes at the end and every earlier
     * image stays in place; at ten or more nothing changes (and the limit message is shown).
     */
    method AddImage(imageUrl: string) returns (added: bool)
      modifies this`images
      ensures added <==> |old(images)| < MAX_IMAGES
      ensures added ==> images == old(images) + [imageUrl]
      ensures !added ==> images == old(images)
      ensures old(WithinImageCap()) ==> WithinImageCap()
      ensures title == old(title) && txSignature == old(txSignature) && isLoading == old(isLoading)
    {
      if |images| >= MAX_IMAGES {
        return false;
      }
      images := images + [imageUrl];
      added := true;
    }

    /**
     * `handleRemoveImage`: deletes the image at `index` when there is one and changes nothing
     * otherwise; the title and the signature are untouched.
     */
    method RemoveImage(index: int)
      modifies this`images
      ensures 0 <= index < |old(images)| ==> images == old(images)[..index] + old(images)[index + 1..]
      ensures !(0 <= index < |old(images)|) ==> images == old(images)
      ensures old(WithinImageCap()) ==> WithinImageCap()
      ensures title == old(title) && txSignature == old(txSignature) && isLoading == old(isLoading)
    {
      images := WithoutIndex(images, index);
    }

    /** The title input's change handler: the title becomes the input's value, nothing else changes. */
    method EditTitle(value: string)
      modifies this`title
      ensures title == value
      ensures images == old(images) && txSignature == old(txSignature) && isLoading == old(isLoading)
    {
      title := value;
    }

    /** The mount effect: the fields found in storage replace the current ones (the image cap is not applied). */
    method Restore(saved: Saved)
      modifies this`images, this`title, this`txSignature
      ensures State() == Restored(old(State()), saved)
      ensures isLoading == old(isLoading)
    {
      if saved.txSignature.Some? && saved.txSignature.value != "" {
        txSignature := saved.txSignature.value;
      }
      if saved.title.Some? && saved.title.value != "" {
        title := saved.title.value;
      }
      if saved.images.Some? && saved.images.value.ImageList? {
        images := saved.images.value.urls;
      }
    }

    /**
     * `onSubmit`, with the stored token and the backend's answer given. It returns the outcome and the
     * request it sent (if any). The draft itself is left as it was, even after a task is created;
     * the busy flag is cleared again whenever the guards let it start.
     */
    method OnSubmit(token: Option<string>, post: PostOutcome) returns (result: SubmitResult, request: Option<TaskRequest>)
      modifies this`isLoading
      ensures result == SubmitFlow(title, images, txSignature, token, post)
      ensures request == SubmitRequest(title, images, txSignature, token)
      ensures isLoading == if result.SubmitBlocked? then old(isLoading) else false
      ensures images == old(images) && title == old(title) && txSignature == old(txSignature)
    {
      var block := SubmitGuard(title, images, txSignature);
      if block.Some? {
        return SubmitBlocked(block.value), None;
      }
      isLoading := true;
      if !SignedIn(token) {
        result, request := SubmitFailed(NOT_SIGNED_IN, false), None;
      } else {
        request := Some(TaskRequest(ImageOptions(images), title, txSignature, token.value));
        match post {
          case TaskStored(id) =>
            result := TaskCreated(id);
          case RequestFailed(message, status) =>
            result := SubmitFailed(message, status != Some(401));
        }
      }
      isLoading := false;
    }

    /**
     * `makePayment`, with the wallet's presence, the balance reply and the transfer's outcome given.
     * The signature is recorded only when the payment is finalized; the busy flag is cleared again
     * whenever the guards let it start.
     */
    method MakePayment(walletConnected: bool, balance: BalanceReply, transfer: TransferOutcome) returns (result: PaymentResult)
      modifies this`isLoading, this`txSignature
      ensures result == PaymentFlow(walletConnected, title, images, balance, transfer)
      ensures txSignature == if result.Paid? then result.signature else old(txSignature)
      ensures isLoading == if result.PaymentBlocked? then old(isLoading) else false
      ensures images == old(images) && title == old(title)
    {
      var block := PaymentGuard(walletConnected, title, images);
      if block.Some? {
        return PaymentBlocked(block.value);
      }
      isLoading := true;
      match balance {
        case BalanceUnavailable(message) =>
          result := PaymentFailed(ErrorMessage(message));
        case Lamports(amount) =>
          if amount < PAYMENT_AMOUNT + ESTIMATED_FEE {
            result := PaymentFailed(INSUFFICIENT_BALANCE);
          } else {
            match transfer {
              case Finalized(signature) =>
                txSignature := signature;
                result := Paid(signature);
              case SendFailed(message) =>
                result := PaymentFailed(ErrorMessage(message));
              case FinalizedWithError =>
                result := PaymentFailed(TRANSACTION_FAILED);
              case ConfirmationTimedOut =>
                result := PaymentFailed(CONFIRMATION_TIMEOUT);
            }
          }
      }
      isLoading := false;
    }
  }
}
