/** The photo screen (app/photo.tsx): a locally selected image, taken with
    the camera or picked from the gallery, that is written to the stored
    personal info only on save, and a confirmed removal that clears both. */
module PhotoScreen {
  import opened CvTypes
  import opened Text
  import opened Validation
  import opened RecordStore
  import opened HomeScreen
  import opened CvPreview
  import opened CvPrint

  /** What the camera or the gallery returns: cancelled, or the uris of the
      chosen assets. */
  datatype PickerResult = Canceled | Assets(uris: seq<string>)

  /** `!result.canceled && result.assets[0]`: the first asset's uri, when
      there is one. */
  function PickedUri(result: PickerResult): (r: Option<string>)
    ensures r.Some? <==> result.Assets? && result.uris != []
    ensures r.Some? ==> r.value == result.uris[0]
  {
    if result.Assets? && |result.uris| > 0 then Some(result.uris[0]) else None
  }

  const CameraDeniedAlert := Alert("Permiso Denegado", "Necesitamos acceso a tu cámara.")
  const GalleryDeniedAlert := Alert("Permiso Denegado", "Necesitamos acceso a tu galería.")
  const SavedAlert := Alert("Éxito", "Foto guardada correctamente")

  /** What the screen draws: the selected image or the "Sin foto"
      placeholder, and the remove button only when there is an image. */
  datatype PhotoView = PhotoView(image: Option<string>, removeButton: bool)

  function ViewOf(selected: Option<string>): (v: PhotoView)
    ensures v.image.Some? <==> Truthy(selected)
    ensures v.image.Some? ==> v.image == selected
    ensures v.removeButton <==> Truthy(selected)
  {
    if Truthy(selected) then PhotoView(selected, true) else PhotoView(None, false)
  }

  class PhotoEditor {
    var selectedImage: Option<string>
    const store: CVStore

    /** The selection starts as the stored image. */
    constructor (store: CVStore)
      ensures this.store == store && selectedImage == store.personalInfo.profileImage
    {
      this.store := store;
      selectedImage := store.personalInfo.profileImage;
    }

    /** A denied permission only alerts; a granted one replaces the
        selection with the first returned asset, and a cancelled or empty
        result keeps it. */
    method Choose(granted: bool, result: PickerResult, denied: Alert) returns (alert: Option<Alert>)
      modifies this`selectedImage
      ensures !granted ==> alert == Some(denied) && selectedImage == old(selectedImage)
      ensures granted ==> alert == None
      ensures granted && PickedUri(result).Some? ==> selectedImage == PickedUri(result)
      ensures granted && PickedUri(result).None? ==> selectedImage == old(selectedImage)
    {
      if !granted {
        return Some(denied);
      }
      var picked := PickedUri(result);
      if picked.Some? {
        selectedImage := picked;
      }
      alert := None;
    }

    /** `takePhoto`: camera permission, then the camera. */
    method TakePhoto(granted: bool, result: PickerResult) returns (alert: Option<Alert>)
      modifies this`selectedImage
      ensures !granted ==> alert == Some(CameraDeniedAlert) && selectedImage == old(selectedImage)
      ensures granted ==>
        alert == None && selectedImage == (if PickedUri(result).Some? then PickedUri(result) else old(selectedImage))
    {
      alert := Choose(granted, result, CameraDeniedAlert);
    }

    /** `pickImage`: gallery permission, then the gallery. */
    method PickImage(granted: bool, result: PickerResult) returns (alert: Option<Alert>)
      modifies this`selectedImage
      ensures !granted ==> alert == Some(GalleryDeniedAlert) && selectedImage == old(selectedImage)
      ensures granted ==>
        alert == None && selectedImage == (if PickedUri(result).Some? then PickedUri(result) else old(selectedImage))
    {
      alert := Choose(granted, result, GalleryDeniedAlert);
    }

    /** `handleSave`: the stored personal info keeps every field but the
        image, which becomes the selection (possibly none). */
    method HandleSave() returns (alert: Alert)
      modifies store
      ensures alert == SavedAlert
      ensures store.Snapshot() ==
        old(store.Snapshot()).(personalInfo := old(store.personalInfo).(profileImage := selectedImage))
    {
      store.UpdatePersonalInfo(store.personalInfo.(profileImage := selectedImage));
      alert := SavedAlert;
    }

    /** `handleRemove`: only a confirmed removal clears the selection and the
        stored image at once. */
    method HandleRemove(confirmed: bool)
      modifies this`selectedImage, store
      ensures confirmed ==>
        selectedImage == None && store.Snapshot() == old(store.Snapshot()).(personalInfo := old(store.personalInfo).(profileImage := None))
      ensures !confirmed ==> selectedImage == old(selectedImage) && store.Snapshot() == old(store.Snapshot())
    {
      if confirmed {
        selectedImage := None;
        store.UpdatePersonalInfo(store.personalInfo.(profileImage := None));
      }
    }
  }

  /** After a save, the home screen, the preview and the printed document
      all agree with the selection: a truthy selection shows everywhere (in
      print as the data URI of the file's contents, when it can be read), and
      no selection leaves the optional status, no preview photo and the
      printed placeholder. */
  lemma SavedPhotoShownEverywhere(head: string, cv: CVData, selected: Option<string>, read: Option<string>)
    ensures var saved := cv.(personalInfo := cv.personalInfo.(profileImage := selected));
      && (HomeOf(saved).photoStatus == PhotoAddedText <==> Truthy(selected))
      && (PreviewOf(saved).photo.Some? <==> Truthy(selected))
      && (Truthy(selected) && read.Some? ==>
            Contains(RenderWith(head, saved, GetBase64Image(selected, read)), ImageTag(DataUriPrefix + read.value)))
      && (!Truthy(selected) ==>
            HomeOf(saved).photoStatus == PhotoOptionalText
            && Contains(RenderWith(head, saved, GetBase64Image(selected, read)), ImagePlaceholder))
  {
    var saved := cv.(personalInfo := cv.personalInfo.(profileImage := selected));
    assert PhotoAddedText != PhotoOptionalText by {
      assert |PhotoAddedText| != |PhotoOptionalText|;
    }
    HeaderPartShown(head, saved, GetBase64Image(selected, read), 3);
  }
}
