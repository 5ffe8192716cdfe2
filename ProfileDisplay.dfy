/** The seller's read-only shop details panel: a placeholder without a
    profile, otherwise each field with its fallback text and a WhatsApp link. */
module ProfileDisplay {
  import opened Common

  const AvatarPlaceholder: string := "/assets/images/seller-placeholder.png"
  const NoDescription: string := "No description provided."
  const NoLocation: string := "Not provided."
  const NoWhatsapp: string := "Not provided"

  datatype Profile = Profile(storeName: string, email: string, description: Option<string>,
                             location: Option<string>, whatsapp: Option<string>, profileImage: Option<string>)

  /** What the panel shows. */
  datatype View =
    | Placeholder
    | Details(avatar: string, storeName: string, email: string, description: string, location: string,
              productCount: int, whatsappText: string, whatsappUrl: Option<string>)

  /** `profile.whatsapp ? chat address : null`. */
  function WhatsappUrl(whatsapp: Option<string>): (url: Option<string>)
    ensures url.None? <==> !Truthy(whatsapp)
  {
    if Truthy(whatsapp) then Some(WaPrefix + StripFirstPlus(whatsapp.value)) else None
  }

  /** The panel for an optional profile and the seller's product count. The
      component's `productCount` defaults to 0 when the caller leaves it out;
      such a caller corresponds to `Render(profile, 0)`. */
  function Render(profile: Option<Profile>, productCount: int): (v: View)
    ensures profile.None? <==> v.Placeholder?
  {
    if profile.None? then Placeholder
    else
      var p := profile.value;
      Details(OrDefault(p.profileImage, AvatarPlaceholder), p.storeName, p.email,
              OrDefault(p.description, NoDescription), OrDefault(p.location, NoLocation), productCount,
              OrDefault(p.whatsapp, NoWhatsapp), WhatsappUrl(p.whatsapp))
  }

  /** Every missing field shows its fallback, and a present one shows itself. */
  lemma RenderFallbacks(p: Profile, productCount: int)
    ensures var v := Render(Some(p), productCount);
            && v.storeName == p.storeName && v.productCount == productCount
            && (Truthy(p.profileImage) ==> v.avatar == p.profileImage.value)
            && (!Truthy(p.profileImage) ==> v.avatar == AvatarPlaceholder)
            && (Truthy(p.description) ==> v.description == p.description.value)
            && (!Truthy(p.description) ==> v.description == NoDescription)
            && (Truthy(p.location) ==> v.location == p.location.value)
            && (!Truthy(p.location) ==> v.location == NoLocation)
  {
  }

  /** The link is offered exactly when a number is shown, and then it is the
      chat address for that number with only its first '+' dropped. */
  lemma RenderWhatsapp(p: Profile, productCount: int)
    ensures var v := Render(Some(p), productCount);
            && (v.whatsappUrl.Some? <==> Truthy(p.whatsapp))
            && (Truthy(p.whatsapp) ==> v.whatsappText == p.whatsapp.value)
            && (!Truthy(p.whatsapp) ==> v.whatsappText == NoWhatsapp)
            && (forall k :: Truthy(p.whatsapp) && IsFirstPlus(p.whatsapp.value, k) ==>
                  v.whatsappUrl == Some(WaPrefix + (p.whatsapp.value[..k] + p.whatsapp.value[k + 1..])))
            && (Truthy(p.whatsapp) && (forall j :: 0 <= j < |p.whatsapp.value| ==> p.whatsapp.value[j] != '+') ==>
                  v.whatsappUrl == Some(WaPrefix + p.whatsapp.value))
  {
    if p.whatsapp.Some? {
      StripFirstPlusRemovesFirstOnly(p.whatsapp.value);
    }
  }
}
