/** Facts about concatenations of string literals: the route names and paths
    the worked scenarios spell out, each equal to the joined pieces the
    emission code builds them from. */
module Literals {

  lemma CategoryPrefixStrings()
    ensures "/" + "category/:category_id" == "/category/:category_id"
    ensures "/" + "category/:category_id" + "/" == "/category/:category_id/"
  {
  }

  lemma CategoryPath()
    ensures "/" + "category/:category_id" + "/" + "messages" == "/category/:category_id/messages"
  {
  }

  lemma CategoriesPrefix()
    ensures "categories" + "/:" + "category" + "_id" == "categories/:category_id"
  {
  }

  lemma CategoriesPathString()
    ensures "/" + "categories/:category_id" + "/" + "messages" == "/categories/:category_id/messages"
  {
  }

  lemma FoldersPathString()
    ensures "/" + "folders/:folder_id" + "/" + "messages" == "/folders/:folder_id/messages"
  {
  }

  lemma CategoryNamePrefix()
    ensures "category" + "_" == "category_"
  {
  }

  lemma MessagesStrings()
    ensures "" + "messages" == "messages"
    ensures "" + ("new_" + "message") == "new_message"
    ensures "" + "edit" + "_" + "message" == "edit_message"
    ensures "/messages" + "/:id" == "/messages/:id"
    ensures "/messages/:id" + "/" + "edit" == "/messages/:id/edit"
    ensures "" + "message" == "message"
  {
  }

  lemma ActionStrings()
    ensures "" + "sorted" + "_" + "messages" == "sorted_messages"
    ensures "/messages" + "/" + "sorted" == "/messages/sorted"
    ensures "" + "comment" + "_" + "message" == "comment_message"
    ensures "/messages/:id" + "/" + "comment" == "/messages/:id/comment"
    ensures "" + ("preview" + "_new_" + "message") == "preview_new_message"
    ensures "/messages/new" + "/" + "preview" == "/messages/new/preview"
    ensures "/messages" + "/:id" == "/messages/:id"
  {
  }

  lemma PrefixStrings()
    ensures "special_" + "message" == "special_message"
    ensures "category_" + "messages" == "category_messages"
    ensures "category_" + "message" == "category_message"
    ensures "" + "messages" == "messages"
    ensures "" + "message" == "message"
    ensures "/categories/:category_id/messages" + "/:id" == "/categories/:category_id/messages/:id"
    ensures "/folders/:folder_id/messages" + "/:id" == "/folders/:folder_id/messages/:id"
  {
  }

  lemma IndexFormattedStrings()
    ensures "json" + "_formatted_" + ("" + "messages") == "json_formatted_messages"
    ensures "/messages" + "." + "json" == "/messages.json"
  {
  }

  lemma IndexXmlStrings()
    ensures "xml" + "_formatted_" + ("" + "messages") == "xml_formatted_messages"
    ensures "/messages" + "." + "xml" == "/messages.xml"
  {
  }

  lemma NewFormattedStrings()
    ensures "json" + "_formatted_" + ("" + ("new_" + "message")) == "json_formatted_new_message"
    ensures "/messages/new" + "." + "json" == "/messages/new.json"
  {
  }

  lemma EditFormattedStrings()
    ensures "json" + "_formatted_" + ("" + "edit" + "_" + "message") == "json_formatted_edit_message"
    ensures "/messages/:id" + "/" + "edit" + "." + "json" == "/messages/:id/edit.json"
  {
  }

  lemma ShowFormattedStrings()
    ensures "json" + "_formatted_" + ("" + "message") == "json_formatted_message"
    ensures "/messages/:id" + "." + "json" == "/messages/:id.json"
  {
  }

  lemma DocActionStrings()
    ensures "" + "rss" + "_" + "messages" == "rss_messages"
    ensures "/messages" + "/" + "rss" == "/messages/rss"
    ensures "" + "mark" + "_" + "message" == "mark_message"
    ensures "/messages/:id" + "/" + "mark" == "/messages/:id/mark"
  {
  }

  lemma DocCategoryStrings()
    ensures "/category/:category_id/messages" + "/:id" == "/category/:category_id/messages/:id"
    ensures "category_" + "message" == "category_message"
  {
  }

  lemma RegionPrefixStrings()
    ensures "regions" + "/:" + "region" + "_id" == "regions/:region_id"
    ensures "region" + "_" == "region_"
  {
  }

  lemma RegionsPathString()
    ensures "/" + "regions/:region_id" + "/" + "locations" == "/regions/:region_id/locations"
  {
  }

  lemma AreasPathString()
    ensures "/" + "areas/:area_id" + "/" + "locations" == "/areas/:area_id/locations"
  {
  }

  lemma RegionRouteStrings()
    ensures "region_" + "locations" == "region_locations"
    ensures "region_" + ("new_" + "location") == "region_new_location"
    ensures "region_" + "location" == "region_location"
    ensures "region_" + "edit" + "_" + "location" == "region_edit_location"
    ensures "" + "locations" == "locations"
  {
  }

  lemma RegionPathStrings()
    ensures "/regions/:region_id/locations" + "/new" == "/regions/:region_id/locations/new"
    ensures "/regions/:region_id/locations" + "/:id" == "/regions/:region_id/locations/:id"
    ensures "/regions/:region_id/locations/:id" + "/" + "edit" == "/regions/:region_id/locations/:id/edit"
  {
  }
}
