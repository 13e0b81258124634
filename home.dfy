/** The protected page: a mount-time guard that reads "token", the image
    "fetch" (which only sets a fixed URL) and the render branching. */
module Home {
  import opened Browser

  const ImageEndpoint := "https://random-image-pepebigotes.vercel.app/api/random-image"

  datatype Content = Loader | Image(src: string)

  /** `Blank` is the `null` rendered while `isAuthenticated` is false. */
  datatype View = Blank | Gallery(content: Content)

  function Render(isAuthenticated: bool, loading: bool, imageUrl: string): (v: View)
    ensures v == Blank <==> !isAuthenticated
    ensures v.Gallery? ==> (v.content == Loader <==> loading)
    ensures v.Gallery? && !loading ==> v.content == Image(imageUrl)
  {
    if !isAuthenticated then Blank
    else if loading then Gallery(Loader)
    else Gallery(Image(imageUrl))
  }

  class HomePage {
    const tab: Tab
    var imageUrl: string
    var loading: bool
    var isAuthenticated: bool

    constructor (tab: Tab)
      ensures this.tab == tab && imageUrl == "" && loading && !isAuthenticated
    {
      this.tab := tab;
      imageUrl, loading, isAuthenticated := "", true, false;
    }

    function Shown(): View
      reads this
    {
      Render(isAuthenticated, loading, imageUrl)
    }

    /** `fetchRandomImage`: the URL is a constant, so the block cannot fail. */
    method FetchRandomImage()
      modifies this
      ensures imageUrl == ImageEndpoint && !loading
      ensures isAuthenticated == old(isAuthenticated)
    {
      loading := true;
      imageUrl := ImageEndpoint;
      loading := false;
    }

    /** The mount effect, run once while `isAuthenticated` still holds its
        initial false. Without a non-empty "token" it only navigates to
        "/login" and renders nothing; with one it authenticates, fetches,
        and shows the image. */
    method Mount()
      requires tab.Valid() && !isAuthenticated
      modifies this, tab
      ensures tab.Valid() && tab.initial == old(tab.initial) && tab.storage == old(tab.storage)
      ensures !HasToken(tab.storage) ==>
        && tab.log == old(tab.log) + [Navigate("/login")] && tab.route == "/login"
        && imageUrl == old(imageUrl) && loading == old(loading) && Shown() == Blank
      ensures HasToken(tab.storage) ==>
        && tab.log == old(tab.log) && tab.route == old(tab.route)
        && isAuthenticated && Shown() == Gallery(Image(ImageEndpoint))
    {
      var token := if TokenKey in tab.storage then tab.storage[TokenKey] else "";
      if token == "" {
        tab.Perform(Navigate("/login"));
      } else {
        isAuthenticated := true;
        FetchRandomImage();
      }
    }
  }
}
