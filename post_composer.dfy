/** `PostComposerView`: a new post's title and content must both hold
    something other than white space; posting hands them to the feed view
    model and either closes the sheet or shows the error. */
module Composer {
  import opened Text
  import opened Posts
  import Feed

  /** `isValid`: neither field trims to nothing. */
  predicate IsValid(title: string, content: string) {
    Trim(title) != [] && Trim(content) != []
  }

  /** A field counts when it holds a character that is not white space. */
  lemma IsValidIffNotBlank(title: string, content: string)
    ensures IsValid(title, content) <==> !IsBlank(title) && !IsBlank(content)
  {
    TrimEmptyIffBlank(title);
    TrimEmptyIffBlank(content);
  }

  class PostComposer {
    const viewModel: Feed.FeedViewModel
    var title: string
    var content: string
    var isPosting: bool
    var error: Option<string>

    constructor (viewModel: Feed.FeedViewModel)
      ensures this.viewModel == viewModel
      ensures title == "" && content == "" && !isPosting && error == None
    {
      this.viewModel := viewModel;
      title, content := "", "";
      isPosting, error := false, None;
    }

    /** The Post button is disabled while the fields are invalid or a post is
        in flight. */
    predicate PostDisabled()
      reads this
    {
      !IsValid(title, content) || isPosting
    }

    /** `postQuestion`: nothing when the fields are invalid; otherwise mark
        posting, clear the error and create the post. On success the sheet
        closes (still marked posting); on failure the error is shown and
        posting ends. */
    method PostQuestion(created: Result<Post, string>) returns (dismissed: bool)
      requires viewModel.Valid()
      modifies this`isPosting, this`error, viewModel`posts, viewModel`filteredPosts
      ensures viewModel.Valid()
      ensures !IsValid(title, content) ==>
        !dismissed && isPosting == old(isPosting) && error == old(error) && viewModel.posts == old(viewModel.posts)
      ensures IsValid(title, content) && created.Ok? ==>
        dismissed && isPosting && error == None && viewModel.posts == [created.value] + old(viewModel.posts)
      ensures IsValid(title, content) && created.Err? ==>
        !dismissed && !isPosting && error == Some(created.error) && viewModel.posts == old(viewModel.posts)
    {
      if Trim(title) == [] || Trim(content) == [] {
        return false;
      }
      isPosting := true;
      error := None;
      var _, thrown := viewModel.CreatePost(title, content, created);
      if thrown.Some? {
        error := thrown;
        isPosting := false;
        dismissed := false;
      } else {
        dismissed := true;
      }
    }
  }
}
