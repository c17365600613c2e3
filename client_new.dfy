/** The multi-image simulator component (app/og-simulator-client-new.tsx):
    its form state, filled from the page's query parameters, and the
    updaters of its image list. Delays are held as milliseconds: the
    component's page delay and image delays are numbers of seconds. */
module ClientNew {
  import opened Js
  import opened Urls
  import opened Images

  class Simulator {
    var title: string
    var description: string
    var siteName: string
    /** The page load delay, in milliseconds. */
    var delay: Num
    var images: seq<ImageConfig>

    /** The initial state: empty texts, no delay, no images. */
    constructor()
      ensures title == "" && description == "" && siteName == ""
      ensures delay == Int(0) && images == []
    {
      title := "";
      description := "";
      siteName := "";
      delay := Int(0);
      images := [];
    }

    /** The effect run when the query parameters change: each text from
        its parameter or a default, the page delay from `delay` read as a
        whole number of seconds, and the image list replaced by the legacy
        entry when the parameters describe one. */
    method LoadParams(sp: Query)
      modifies this
      ensures title == ValueOr(sp, "title", "Test Page Title")
      ensures description == ValueOr(sp, "description", "Test page description for OG tag generation")
      ensures siteName == ValueOr(sp, "site_name", "Test Site")
      ensures delay == Times(ParseOr(Get(sp, "delay"), 0), 1000)
      ensures images == if LegacyImage(sp).Some? then [LegacyImage(sp).value] else old(images)
    {
      title := ValueOr(sp, "title", "Test Page Title");
      description := ValueOr(sp, "description", "Test page description for OG tag generation");
      siteName := ValueOr(sp, "site_name", "Test Site");
      delay := Times(ParseOr(Get(sp, "delay"), 0), 1000);
      var legacy := LegacyImage(sp);
      if legacy.Some? {
        images := [legacy.value];
      }
    }

    /** `addImage`, with `now` the value of `Date.now()`. */
    method AddImage(now: int)
      modifies this`images
      ensures images == old(images) + [NewImage(now)]
    {
      images := images + [NewImage(now)];
    }

    method UpdateImage(id: string, p: Patch)
      modifies this`images
      ensures images == Updated(old(images), id, p)
    {
      images := Updated(images, id, p);
    }

    method RemoveImage(id: string)
      modifies this`images
      ensures images == Removed(old(images), id)
    {
      images := Removed(images, id);
    }

    /** The type selector of one entry: the new type, the other type's
        fields cleared. */
    method SelectType(id: string, kind: Kind)
      modifies this`images
      ensures images == Updated(old(images), id, SwitchPatch(kind))
    {
      UpdateImage(id, SwitchPatch(kind));
    }
  }
}
